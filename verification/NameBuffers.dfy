/** Names in 32-byte buffers, identity frames, and the TaskMeta structure that handlers rewrite in place. */
module NameBuffers {
  import opened Messages

  /** What std::string reads from a char buffer: everything before the first NUL. */
  function CString(b: seq<char>): (s: string)
    ensures NulFree(s) && |s| <= |b| && s == b[..|s|]
    ensures |s| < |b| ==> b[|s|] == NUL
  {
    if b == [] || b[0] == NUL then [] else [b[0]] + CString(b[1..])
  }

  predicate Terminated(b: seq<char>) {
    |b| == MAX_NAME && b[MAX_NAME - 1] == NUL
  }

  /** The buffer after copyStringToBuffer: the bytes behind the copied NUL are those of before. */
  function Copied(b: seq<char>, str: string): seq<char>
    requires |b| == MAX_NAME && |str| < MAX_NAME
  {
    (str + [NUL] + b[|str| + 1..])[MAX_NAME - 1 := NUL]
  }

  /** A buffer is read by its first NUL alone. */
  lemma {:induction false} ReadsPrefix(s: string, b: seq<char>)
    requires |s| < |b| && NulFree(s) && b[..|s|] == s && b[|s|] == NUL
    ensures CString(b) == s
  {
    if s != "" {
      assert b[0] == s[0];
      assert b[1..][..|s| - 1] == s[1..];
      ReadsPrefix(s[1..], b[1..]);
    }
  }

  lemma TerminatedFits(b: seq<char>)
    requires Terminated(b)
    ensures FitsBuffer(CString(b))
  {
    var s := CString(b);
    assert forall i :: 0 <= i < |s| ==> s[i] in s && b[i] != NUL;
  }

  /** A string is read back whole exactly when it has no NUL. */
  lemma ReadsWhole(str: string)
    ensures CString(str) == str <==> NulFree(str)
  {
    var s := CString(str);
    assert |s| < |str| ==> str[|s|] in str;
  }

  lemma CopiedBytes(b: seq<char>, str: string)
    requires |b| == MAX_NAME && |str| < MAX_NAME
    ensures Terminated(Copied(b, str)) && Copied(b, str)[..|str|] == str && Copied(b, str)[|str|] == NUL
  {
  }

  /**
   * After copyStringToBuffer the buffer is terminated and reads as the string up to its first NUL,
   * whatever stale bytes it held; so it reads as the string exactly when that has no NUL.
   */
  lemma CopiedReads(b: seq<char>, str: string)
    requires |b| == MAX_NAME && |str| < MAX_NAME
    ensures Terminated(Copied(b, str)) && CString(Copied(b, str)) == CString(str)
    ensures CString(Copied(b, str)) == str <==> NulFree(str)
  {
    CopiedBytes(b, str);
    ReadsWhole(str);
    hide Copied;
    var s, c := CString(str), Copied(b, str);
    assert c[..|s|] == c[..|str|][..|s|] == s;
    assert c[|s|] == NUL by {
      assert |s| < |str| ==> c[|s|] == c[..|str|][|s|];
    }
    ReadsPrefix(s, c);
  }

  method CopyStringToBuffer(buffer: array<char>, str: string)
    requires buffer.Length == MAX_NAME && |str| < MAX_NAME
    modifies buffer
    ensures buffer[..] == Copied(old(buffer[..]), str)
    ensures Terminated(buffer[..]) && CString(buffer[..]) == CString(str)
    ensures buffer[..|str|] == str && buffer[|str|] == NUL
    ensures forall i :: |str| < i < MAX_NAME - 1 ==> buffer[i] == old(buffer[i])
  {
    forall i | 0 <= i <= |str| {
      buffer[i] := if i < |str| then str[i] else NUL;
    }
    buffer[MAX_NAME - 1] := NUL;
    assert buffer[..] == Copied(old(buffer[..]), str);
    CopiedReads(old(buffer[..]), str);
  }

  method SwapBuffer(buffer1: array<char>, buffer2: array<char>)
    requires buffer1.Length == buffer2.Length == MAX_NAME && buffer1 != buffer2
    modifies buffer1, buffer2
    ensures buffer1[..] == old(buffer2[..]) && buffer2[..] == old(buffer1[..])
  {
    var tmpBuffer := new char[1024](_ => NUL);
    forall i | 0 <= i < MAX_NAME {
      tmpBuffer[i] := buffer1[i];
    }
    forall i | 0 <= i < MAX_NAME {
      buffer1[i] := buffer2[i];
    }
    forall i | 0 <= i < MAX_NAME {
      buffer2[i] := tmpBuffer[i];
    }
  }

  /** A message part, as bytes. */
  type Frame = seq<char>

  /** A part that is not empty, as every part is that these programs send. */
  type Bytes = f: Frame | f != [] witness [NUL]

  /** c_str() with size() + 1 bytes: what stringToZMQMsg sends, and the identity a DEALER registers. */
  function StringToFrame(payload: string): Bytes {
    payload + [NUL]
  }

  /** MessageHelper::ZMQMsgToString. */
  function FrameToString(f: Bytes): string {
    f[..|f| - 1]
  }

  /** A string is read back from its frame; a frame is rebuilt from its string exactly when it ends with a NUL. */
  lemma FramesReadBack(str: string, f: Bytes)
    ensures FrameToString(StringToFrame(str)) == str
    ensures StringToFrame(FrameToString(f)) == f <==> f[|f| - 1] == NUL
  {
    assert f == FrameToString(f) + [f[|f| - 1]];
    assert StringToFrame(FrameToString(f))[|f| - 1] == NUL;
  }

  /**
   * A name copied into a buffer, read out of it again and made into a frame addresses the peer that
   * registered under id exactly when the name, up to its first NUL, is id; so whatever stale bytes the
   * buffer held, a name without NULs addresses its own peer and no other, and a peer whose id has a
   * NUL cannot be addressed at all.
   */
  lemma FramesAddressOnePeer(b: seq<char>, name: string, id: string)
    requires |b| == MAX_NAME && |name| < MAX_NAME
    ensures StringToFrame(CString(Copied(b, name))) == StringToFrame(id) <==> CString(name) == id
    ensures NulFree(name) ==> (StringToFrame(CString(Copied(b, name))) == StringToFrame(id) <==> name == id)
    ensures !NulFree(id) ==> StringToFrame(CString(Copied(b, name))) != StringToFrame(id)
  {
    CopiedReads(b, name);
    ReadsWhole(name);
    FramesReadBack(CString(name), [NUL]);
    FramesReadBack(id, [NUL]);
  }

  /** TaskMeta as the bytes of a message. */
  datatype WireMeta = WireMeta(
    fromClusterID: seq<char>,
    fromID: seq<char>,
    toClusterID: seq<char>,
    toID: seq<char>,
    taskID: nat,
    taskType: TaskType,
    taskDirection: Direction)
  {
    predicate WellFormed() {
      Terminated(fromClusterID) && Terminated(fromID) && Terminated(toClusterID) && Terminated(toID)
    }

    /** The record of strings that these bytes are read as. */
    function Read(): Meta {
      var addr := Addr(CString(fromClusterID), CString(fromID), CString(toClusterID), CString(toID));
      Meta(addr, taskID, taskType, taskDirection)
    }
  }

  datatype WireMessage = WireMessage(meta: WireMeta, body: Body) {
    predicate WellFormed() {
      meta.WellFormed()
    }

    function Read(): Message {
      Message(meta.Read(), body)
    }
  }

  /** A handler's local TaskMeta: four buffers and three plain fields. */
  class TaskMeta {
    const fromClusterID: array<char>
    const fromID: array<char>
    const toClusterID: array<char>
    const toID: array<char>
    var taskID: nat
    var taskType: TaskType
    var taskDirection: Direction

    ghost function Buffers(): set<object> {
      {fromClusterID, fromID, toClusterID, toID}
    }

    ghost predicate Valid()
      reads this, Buffers()
    {
      && fromClusterID != fromID && fromClusterID != toClusterID && fromClusterID != toID
      && fromID != toClusterID && fromID != toID && toClusterID != toID
      && fromClusterID.Length == fromID.Length == toClusterID.Length == toID.Length == MAX_NAME
      && Wire().WellFormed()
    }

    /** The bytes memcpy takes out of this structure. */
    function Wire(): WireMeta
      reads this, Buffers()
    {
      WireMeta(fromClusterID[..], fromID[..], toClusterID[..], toID[..], taskID, taskType, taskDirection)
    }

    /** The structure as its declaration initialises it. */
    constructor Zeroed()
      ensures Valid() && fresh(Buffers())
      ensures Wire().Read() == Meta(Addr("", "", "", ""), 0, NormalTask, Submit)
    {
      fromClusterID := new char[MAX_NAME](_ => NUL);
      fromID := new char[MAX_NAME](_ => NUL);
      toClusterID := new char[MAX_NAME](_ => NUL);
      toID := new char[MAX_NAME](_ => NUL);
      taskID, taskType, taskDirection := 0, NormalTask, Submit;
    }

    /** memcpy of a received meta frame into the structure. */
    constructor FromWire(m: WireMeta)
      requires m.WellFormed()
      ensures Valid() && fresh(Buffers()) && Wire() == m
    {
      fromClusterID := new char[MAX_NAME](i requires 0 <= i < MAX_NAME => m.fromClusterID[i]);
      fromID := new char[MAX_NAME](i requires 0 <= i < MAX_NAME => m.fromID[i]);
      toClusterID := new char[MAX_NAME](i requires 0 <= i < MAX_NAME => m.toClusterID[i]);
      toID := new char[MAX_NAME](i requires 0 <= i < MAX_NAME => m.toID[i]);
      taskID, taskType, taskDirection := m.taskID, m.taskType, m.taskDirection;
      new;
      assert fromClusterID[..] == m.fromClusterID && fromID[..] == m.fromID;
      assert toClusterID[..] == m.toClusterID && toID[..] == m.toID;
    }
  }
}
