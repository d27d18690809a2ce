/** What travels between clients, workers, cluster brokers and the super broker. */
module Messages {
  datatype Option<+T> = None | Some(value: T)

  /** cluster_core.h: TaskDirection and TaskType. */
  datatype Direction = Submit | Reply | ReplyWithError | ReplyRejected
  datatype TaskType = NormalTask | AliveSignal

  /** The four address fields of TaskMeta, read as C strings. */
  datatype Addr = Addr(fromCluster: string, from: string, toCluster: string, to: string)

  datatype Meta = Meta(addr: Addr, taskID: nat, taskType: TaskType, direction: Direction)

  /** The second frame: a TaskRequest, a TaskReply, or the one-byte frame of an alive signal. */
  datatype Body = Numbers(arr: seq<real>) | Total(sum: real) | Blank

  datatype Message = Message(meta: Meta, body: Body)

  /** One direction of one connection. */
  datatype Link =
    | ClientUp(cluster: string, id: string)
    | ClientDown(cluster: string, id: string)
    | WorkerUp(cluster: string, id: string)
    | WorkerDown(cluster: string, id: string)
    | CloudUp(cluster: string)
    | CloudDown(cluster: string)

  /** Addition of doubles, left abstract: rounding makes it neither exact nor associative. */
  type Adder = (real, real) -> real

  /** The sum a loop from the first to the last element computes. */
  function FoldLeft(add: Adder, arr: seq<real>): real {
    if arr == [] then 0.0 else add(FoldLeft(add, arr[..|arr| - 1]), arr[|arr| - 1])
  }

  /** The running sums of such a loop: it starts from zero and adds the numbers one by one, each once, in order. */
  predicate PartialSums(add: Adder, arr: seq<real>, p: seq<real>) {
    |p| == |arr| + 1 && p[0] == 0.0 && forall i :: 0 <= i < |arr| ==> p[i + 1] == add(p[i], arr[i])
  }

  ghost predicate SumsTo(add: Adder, arr: seq<real>, sum: real) {
    exists p :: PartialSums(add, arr, p) && p[|arr|] == sum
  }

  lemma {:induction false} FoldEndsSums(add: Adder, arr: seq<real>, p: seq<real>)
    requires PartialSums(add, arr, p)
    ensures FoldLeft(add, arr) == p[|arr|]
  {
    if arr != [] {
      FoldEndsSums(add, arr[..|arr| - 1], p[..|arr|]);
    }
  }

  lemma {:induction false} PartialSumsExist(add: Adder, arr: seq<real>) returns (p: seq<real>)
    ensures PartialSums(add, arr, p)
  {
    if arr == [] {
      p := [0.0];
    } else {
      p := PartialSumsExist(add, arr[..|arr| - 1]);
      p := p + [add(p[|arr| - 1], arr[|arr| - 1])];
    }
  }

  /** The fold is where the running sums end, and nothing else is. */
  lemma FoldSums(add: Adder, arr: seq<real>, sum: real)
    ensures SumsTo(add, arr, sum) <==> sum == FoldLeft(add, arr)
  {
    var p := PartialSumsExist(add, arr);
    FoldEndsSums(add, arr, p);
    if SumsTo(add, arr, sum) {
      var q :| PartialSums(add, arr, q) && q[|arr|] == sum;
      FoldEndsSums(add, arr, q);
    }
  }

  const MAX_NAME := 32
  const NUL := '\0'

  predicate NulFree(s: string) {
    NUL !in s
  }

  /** A name that a 32-byte buffer can hold. */
  predicate FitsBuffer(s: string) {
    |s| < MAX_NAME && NulFree(s)
  }

  predicate ValidName(s: string) {
    s != "" && FitsBuffer(s)
  }

  const TWO_TO_32 := 0x1_0000_0000

  /** static_cast<uint32_t> of a queue size. */
  function Truncate32(n: nat): nat {
    n % TWO_TO_32
  }

  /** Truncation drops whole multiples of 2^32, and keeps what a uint32_t can hold. */
  lemma TruncateWraps(n: nat, k: nat)
    ensures Truncate32(n) < TWO_TO_32
    ensures Truncate32(n + k * TWO_TO_32) == Truncate32(n)
    ensures n < TWO_TO_32 ==> Truncate32(n) == n
  {
  }

  lemma TruncateSmall(n: nat)
    requires n < TWO_TO_32
    ensures Truncate32(n) == n
  {
  }
}
