/** The super broker's table of reports (a std::map, so kept in key order) and its choice of a cluster. */
module ClusterTable {
  import opened Messages

  datatype Entry = Entry(name: string, count: nat)

  /** The byte-wise order of std::string. */
  predicate Less(a: string, b: string) {
    if b == "" then false
    else if a == "" then true
    else if a[0] != b[0] then a[0] < b[0]
    else Less(a[1..], b[1..])
  }

  /** b comes after a by its first byte that differs, or by its length when a is the beginning of b. */
  predicate FirstDiffersAt(a: string, b: string, k: nat) {
    k <= |a| && k < |b| && a[..k] == b[..k] && (k < |a| ==> a[k] < b[k])
  }

  ghost predicate ByteBefore(a: string, b: string) {
    exists k: nat :: FirstDiffersAt(a, b, k)
  }

  /** The order of the names is the lexicographic order of their bytes. */
  lemma {:induction false} LessIsByteOrder(a: string, b: string)
    ensures Less(a, b) <==> ByteBefore(a, b)
  {
    if b != "" && a == "" {
      assert FirstDiffersAt(a, b, 0);
    } else if b != "" && a[0] != b[0] {
      assert a[0] < b[0] ==> FirstDiffersAt(a, b, 0);
      forall k: nat | FirstDiffersAt(a, b, k) ensures a[0] < b[0] {
        assert k > 0 ==> a[..k][0] == b[..k][0];
      }
    } else if b != "" {
      LessIsByteOrder(a[1..], b[1..]);
      forall k: nat | FirstDiffersAt(a[1..], b[1..], k) ensures FirstDiffersAt(a, b, k + 1) {
        assert a[..k + 1] == [a[0]] + a[1..][..k] && b[..k + 1] == [b[0]] + b[1..][..k];
      }
      forall k: nat | FirstDiffersAt(a, b, k) ensures k > 0 && FirstDiffersAt(a[1..], b[1..], k - 1) {
        assert k > 0 ==> a[1..][..k - 1] == a[..k][1..] && b[1..][..k - 1] == b[..k][1..];
      }
    }
  }

  lemma {:induction false} LessTotal(a: string, b: string)
    ensures Less(a, b) || a == b || Less(b, a)
  {
    if a != "" && b != "" && a[0] == b[0] {
      LessTotal(a[1..], b[1..]);
      assert a == [a[0]] + a[1..] && b == [b[0]] + b[1..];
    }
  }

  lemma {:induction false} LessIrreflexive(a: string)
    ensures !Less(a, a)
  {
    if a != "" {
      LessIrreflexive(a[1..]);
    }
  }

  lemma {:induction false} LessTransitive(a: string, b: string, c: string)
    requires Less(a, b) && Less(b, c)
    ensures Less(a, c)
  {
    if a != "" && a[0] == b[0] && b[0] == c[0] {
      LessTransitive(a[1..], b[1..], c[1..]);
    }
  }

  ghost predicate Sorted(t: seq<Entry>) {
    forall i, j :: 0 <= i < j < |t| ==> Less(t[i].name, t[j].name)
  }

  /** The assignment clusterInfoMap_[name] = count. */
  function Upsert(t: seq<Entry>, name: string, count: nat): seq<Entry> {
    if t == [] then [Entry(name, count)]
    else if t[0].name == name then [Entry(name, count)] + t[1..]
    else if Less(name, t[0].name) then [Entry(name, count)] + t
    else [t[0]] + Upsert(t[1..], name, count)
  }

  function View(t: seq<Entry>): map<string, nat> {
    if t == [] then map[] else View(t[1..])[t[0].name := t[0].count]
  }

  lemma {:induction false} ViewKeys(t: seq<Entry>)
    ensures forall n :: n in View(t) <==> exists i :: 0 <= i < |t| && t[i].name == n
  {
    if t != [] {
      ViewKeys(t[1..]);
      forall n ensures n in View(t) <==> exists i :: 0 <= i < |t| && t[i].name == n {
        if n in View(t[1..]) {
          var i :| 0 <= i < |t[1..]| && t[1..][i].name == n;
          assert t[i + 1].name == n;
        }
        if i :| 0 <= i < |t| && t[i].name == n {
          if i > 0 {
            assert t[1..][i - 1].name == n;
          }
        }
      }
    }
  }

  lemma {:induction false} ViewHolds(t: seq<Entry>, i: nat)
    requires Sorted(t) && i < |t|
    ensures t[i].name in View(t) && View(t)[t[i].name] == t[i].count
  {
    if i > 0 {
      ViewHolds(t[1..], i - 1);
      LessIrreflexive(t[0].name);
      assert Less(t[0].name, t[i].name);
    }
  }

  /** The head of a sorted table is below every other name in it. */
  lemma HeadLeast(t: seq<Entry>, n: string)
    requires Sorted(t) && t != [] && n in View(t[1..])
    ensures Less(t[0].name, n) && n != t[0].name
  {
    ViewKeys(t[1..]);
    var i :| 0 <= i < |t[1..]| && t[1..][i].name == n;
    assert Less(t[0].name, t[i + 1].name);
    LessIrreflexive(n);
  }

  lemma {:induction false} UpsertView(t: seq<Entry>, name: string, count: nat)
    requires Sorted(t)
    ensures View(Upsert(t, name, count)) == View(t)[name := count]
  {
    if t != [] && t[0].name != name && !Less(name, t[0].name) {
      UpsertView(t[1..], name, count);
    }
  }

  lemma {:induction false} UpsertSorted(t: seq<Entry>, name: string, count: nat)
    requires Sorted(t)
    ensures Sorted(Upsert(t, name, count))
  {
    if t != [] {
      var u := Upsert(t, name, count);
      if t[0].name == name {
        assert forall i :: 1 <= i < |u| ==> u[i] == t[i];
      } else if Less(name, t[0].name) {
        assert forall i :: 1 <= i < |u| ==> u[i] == t[i - 1];
        forall j | 1 <= j < |u| ensures Less(name, u[j].name) {
          if j > 1 {
            LessTransitive(name, t[0].name, t[j - 1].name);
          }
        }
      } else {
        LessTotal(name, t[0].name);
        UpsertSorted(t[1..], name, count);
        UpsertView(t[1..], name, count);
        forall j | 1 <= j < |u| ensures Less(t[0].name, u[j].name) {
          assert u[1..] == Upsert(t[1..], name, count) && u[1..][j - 1] == u[j];
          ViewKeys(u[1..]);
          assert u[j].name in View(u[1..]);
          if u[j].name != name {
            HeadLeast(t, u[j].name);
          }
        }
        assert forall i, j :: 1 <= i < j < |u| ==> u[i] == u[1..][i - 1] && u[j] == u[1..][j - 1];
      }
    }
  }

  /** All entries but the last. */
  function Front(t: seq<Entry>): seq<Entry>
    requires t != []
  {
    t[..|t| - 1]
  }

  /** The in-order scan of taskRouter, as the pair of its two loop variables. */
  function Scan(t: seq<Entry>): (string, nat) {
    if t == [] then ("", 0)
    else
      var (target, most) := Scan(Front(t));
      var e := t[|t| - 1];
      (if e.count > most then e.name else target, if e.count > most then e.count else most)
  }

  function Choose(t: seq<Entry>): Option<string> {
    var (target, most) := Scan(t);
    if most == 0 || target == "" then None else Some(target)
  }

  /** n has the largest count, which is positive, and is the least name that has it, byte by byte. */
  ghost predicate Best(v: map<string, nat>, n: string) {
    n in v && v[n] > 0 && forall m :: m in v ==> v[m] < v[n] || (v[m] == v[n] && (m == n || ByteBefore(n, m)))
  }

  ghost predicate AllZero(v: map<string, nat>) {
    forall m :: m in v ==> v[m] == 0
  }

  lemma BestUnique(v: map<string, nat>, a: string, b: string)
    requires Best(v, a) && Best(v, b)
    ensures a == b
  {
    if a != b {
      LessIsByteOrder(a, b);
      LessIsByteOrder(b, a);
      LessTransitive(a, b, a);
      LessIrreflexive(a);
    }
  }

  lemma {:induction false} ViewAppend(t: seq<Entry>)
    requires t != [] && Sorted(t)
    ensures View(t) == View(Front(t))[t[|t| - 1].name := t[|t| - 1].count]
    ensures forall n :: n in View(Front(t)) ==> Less(n, t[|t| - 1].name) && n != t[|t| - 1].name
  {
    if |t| > 1 {
      var e := t[|t| - 1];
      assert Front(t)[1..] == Front(t[1..]) && t[1..][|t| - 2] == e;
      ViewAppend(t[1..]);
      assert Less(t[0].name, e.name);
      LessIrreflexive(e.name);
    }
  }

  /** The scan ends with the largest count and the least name that has it. */
  lemma {:induction false} ScanFindsBest(t: seq<Entry>)
    requires Sorted(t)
    ensures Scan(t).1 == 0 <==> AllZero(View(t))
    ensures Scan(t).1 > 0 ==> Best(View(t), Scan(t).0) && View(t)[Scan(t).0] == Scan(t).1
  {
    if t != [] {
      ScanFindsBest(Front(t));
      ViewAppend(t);
      LessIsByteOrder(Scan(Front(t)).0, t[|t| - 1].name);
      assert t[|t| - 1].name in View(t);
      forall m | m in View(Front(t)) ensures m in View(t) && View(t)[m] == View(Front(t))[m] {}
    }
  }

  /**
   * The cluster chosen is the least of the non-empty names with the largest positive count.
   * A request is refused exactly when no count is positive or the nameless cluster would win.
   */
  lemma ChoiceIsBest(t: seq<Entry>)
    requires Sorted(t)
    ensures forall n :: Choose(t) == Some(n) <==> n != "" && Best(View(t), n)
    ensures Choose(t) == None <==> AllZero(View(t)) || Best(View(t), "")
    ensures "" !in View(t) ==> (Choose(t) == None <==> AllZero(View(t)))
  {
    ScanFindsBest(t);
    forall n | Best(View(t), n) ensures Scan(t).1 > 0 && n == Scan(t).0 {
      BestUnique(View(t), n, Scan(t).0);
    }
  }

  lemma {:induction false} ChosenIsListed(t: seq<Entry>)
    ensures Scan(t).1 > 0 ==> exists i :: 0 <= i < |t| && t[i].name == Scan(t).0
  {
    if t != [] {
      ChosenIsListed(Front(t));
      assert t[|t| - 1].count > Scan(Front(t)).1 ==> t[|t| - 1].name == Scan(t).0;
      if Scan(t).1 > 0 && t[|t| - 1].count <= Scan(Front(t)).1 {
        var i :| 0 <= i < |t| - 1 && Front(t)[i].name == Scan(t).0;
        assert t[i].name == Scan(t).0;
      }
    }
  }

  /** The table after a run of reports, each a (name, count) pair, has been pulled. */
  function PullAll(reports: seq<Entry>): seq<Entry> {
    if reports == [] then []
    else
      var r := reports[|reports| - 1];
      Upsert(PullAll(Front(reports)), r.name, r.count)
  }

  /** The count in the last report that names n. */
  function Latest(reports: seq<Entry>, n: string): Option<nat> {
    if reports == [] then None
    else if reports[|reports| - 1].name == n then Some(reports[|reports| - 1].count)
    else Latest(Front(reports), n)
  }

  lemma {:induction false} PullAllHoldsLatest(reports: seq<Entry>)
    ensures Sorted(PullAll(reports))
    ensures forall n :: n in View(PullAll(reports)) <==> Latest(reports, n).Some?
    ensures forall n :: n in View(PullAll(reports)) ==> Latest(reports, n) == Some(View(PullAll(reports))[n])
  {
    if reports != [] {
      var front, r := Front(reports), reports[|reports| - 1];
      PullAllHoldsLatest(front);
      UpsertSorted(PullAll(front), r.name, r.count);
      UpsertView(PullAll(front), r.name, r.count);
    }
  }

  /** Without its head, a table holds every name but the head's. */
  lemma TailView(t: seq<Entry>)
    requires Sorted(t) && t != []
    ensures View(t[1..]) == View(t) - {t[0].name}
  {
    forall n | n in View(t[1..]) ensures n != t[0].name {
      HeadLeast(t, n);
    }
  }

  /** The head of a table has the least of its names. */
  lemma HeadOfView(t: seq<Entry>, n: string)
    requires Sorted(t) && t != [] && n in View(t)
    ensures n == t[0].name || Less(t[0].name, n)
  {
    if n != t[0].name {
      HeadLeast(t, n);
    }
  }

  lemma {:induction false} SameViewSameTable(t: seq<Entry>, u: seq<Entry>)
    requires Sorted(t) && Sorted(u) && View(t) == View(u)
    ensures t == u
  {
    assert t != [] ==> t[0].name in View(t);
    assert u != [] ==> u[0].name in View(u);
    if t != [] && u != [] {
      HeadOfView(t, u[0].name);
      HeadOfView(u, t[0].name);
      if t[0].name != u[0].name {
        LessTransitive(t[0].name, u[0].name, t[0].name);
        LessIrreflexive(t[0].name);
      }
      TailView(t);
      TailView(u);
      SameViewSameTable(t[1..], u[1..]);
      ViewHolds(t, 0);
      ViewHolds(u, 0);
    }
  }

  /** Only each cluster's last report matters, however the reports of different clusters interleaved. */
  lemma OnlyLatestReportsMatter(a: seq<Entry>, b: seq<Entry>)
    requires forall n :: Latest(a, n) == Latest(b, n)
    ensures PullAll(a) == PullAll(b)
    ensures Choose(PullAll(a)) == Choose(PullAll(b))
  {
    PullAllHoldsLatest(a);
    PullAllHoldsLatest(b);
    var u, v := View(PullAll(a)), View(PullAll(b));
    forall n ensures n in u <==> n in v {
      assert Latest(a, n) == Latest(b, n);
    }
    forall n | n in u ensures u[n] == v[n] {
      assert Latest(a, n) == Latest(b, n);
    }
    SameViewSameTable(PullAll(a), PullAll(b));
  }
}
