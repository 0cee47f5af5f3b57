/** The bounded registry of session-to-project bindings against the unbounded map it stands
    for (mcp_core/context.py). */
module SessionRegistry {
  import opened Sequences
  import opened Options

  const MAX_SESSION_BINDINGS: nat := 512

  datatype Session = Session(uuid: nat)

  datatype Project = Project(uuid: nat)

  /** An `OrderedDict` item; the dictionary is the sequence of its items, oldest first. */
  datatype Entry = Entry(session: Session, project: Project)

  ghost function Names(es: seq<Entry>): set<Session> {
    set e | e in es :: e.session
  }

  ghost predicate Distinct(es: seq<Entry>) {
    forall i, j :: 0 <= i < j < |es| ==> es[i].session != es[j].session
  }

  /** `pop(session, None)`. */
  function Without(es: seq<Entry>, s: Session): seq<Entry> {
    if es == [] then []
    else if es[0].session == s then Without(es[1..], s)
    else [es[0]] + Without(es[1..], s)
  }

  /** `popitem(last=False)` until the cap is met. */
  function Trim(es: seq<Entry>): seq<Entry> {
    if |es| > MAX_SESSION_BINDINGS then Trim(es[1..]) else es
  }

  function Lookup(es: seq<Entry>, s: Session): Option<Project> {
    if es == [] then None
    else if es[0].session == s then Some(es[0].project)
    else Lookup(es[1..], s)
  }

  lemma {:induction false} WithoutFacts(es: seq<Entry>, s: Session)
    ensures Names(Without(es, s)) == Names(es) - {s}
    ensures forall e :: e in Without(es, s) ==> e in es
    ensures |Without(es, s)| <= |es|
    ensures Distinct(es) ==> Distinct(Without(es, s)) && (s in Names(es) ==> |Without(es, s)| == |es| - 1)
    ensures s !in Names(es) ==> Without(es, s) == es
  {
    if es == [] {
    } else {
      WithoutFacts(es[1..], s);
      assert es == [es[0]] + es[1..];
      SplitNames([es[0]], es[1..]);
      SplitNames([es[0]], Without(es[1..], s));
      assert Names([es[0]]) == {es[0].session};
      if Distinct(es) {
        DistinctSplit([es[0]], es[1..]);
        assert Distinct([es[0]]);
        if es[0].session != s {
          DistinctJoin([es[0]], Without(es[1..], s));
        }
      }
    }
  }

  lemma {:induction false} SplitNames(a: seq<Entry>, b: seq<Entry>)
    ensures Names(a + b) == Names(a) + Names(b)
  {
    forall x
      ensures x in Names(a + b) <==> x in Names(a) || x in Names(b)
    {
      if x in Names(a + b) {
        var e :| e in a + b && e.session == x;
        assert e in a || e in b;
      }
      if x in Names(a) {
        var e :| e in a && e.session == x;
        assert e in a + b;
      }
      if x in Names(b) {
        var e :| e in b && e.session == x;
        assert e in a + b;
      }
    }
  }

  lemma {:induction false} DistinctSplit(a: seq<Entry>, b: seq<Entry>)
    requires Distinct(a + b)
    ensures Distinct(a) && Distinct(b) && Names(a) !! Names(b)
  {
    forall i, j | 0 <= i < |a| && 0 <= j < |b|
      ensures a[i].session != b[j].session
    {
      assert (a + b)[i].session != (a + b)[|a| + j].session;
    }
    forall i, j | 0 <= i < j < |b|
      ensures b[i].session != b[j].session
    {
      assert (a + b)[|a| + i].session != (a + b)[|a| + j].session;
    }
    forall i, j | 0 <= i < j < |a|
      ensures a[i].session != a[j].session
    {
      assert (a + b)[i].session != (a + b)[j].session;
    }
  }

  lemma {:induction false} DistinctJoin(a: seq<Entry>, b: seq<Entry>)
    requires Distinct(a) && Distinct(b) && Names(a) !! Names(b)
    ensures Distinct(a + b)
  {
    forall i, j | 0 <= i < j < |a + b|
      ensures (a + b)[i].session != (a + b)[j].session
    {
      if i < |a| <= j {
        assert a[i].session in Names(a) && b[j - |a|].session in Names(b);
      }
    }
  }

  lemma {:induction false} DistinctCount(es: seq<Entry>)
    requires Distinct(es)
    ensures |Names(es)| == |es|
  {
    if es == [] {
      assert Names(es) == {};
    } else {
      assert es == [es[0]] + es[1..];
      DistinctSplit([es[0]], es[1..]);
      SplitNames([es[0]], es[1..]);
      DistinctCount(es[1..]);
      assert Names([es[0]]) == {es[0].session};
    }
  }

  lemma {:induction false} WithoutJoin(a: seq<Entry>, b: seq<Entry>, s: Session)
    ensures Without(a + b, s) == Without(a, s) + Without(b, s)
  {
    if a == [] {
      assert a + b == b;
    } else {
      WithoutJoin(a[1..], b, s);
      assert (a + b)[1..] == a[1..] + b;
    }
  }

  /** Removing a session from distinct bindings closes the gap where it stood. */
  lemma {:induction false} WithoutAt(es: seq<Entry>, i: nat)
    requires i < |es| && Distinct(es)
    ensures Without(es, es[i].session) == es[..i] + es[i + 1..]
  {
    var s := es[i].session;
    assert es == es[..i] + ([es[i]] + es[i + 1..]);
    WithoutJoin(es[..i], [es[i]] + es[i + 1..], s);
    assert ([es[i]] + es[i + 1..])[1..] == es[i + 1..];
    WithoutFacts(es[..i], s);
    WithoutFacts(es[i + 1..], s);
  }

  lemma {:induction false} LookupPlaced(pre: seq<Entry>, e: Entry, tail: seq<Entry>)
    requires e.session !in Names(pre)
    ensures Lookup(pre + [e] + tail, e.session) == Some(e.project)
  {
    if pre == [] {
      assert pre + [e] + tail == [e] + tail;
    } else {
      assert pre[0].session in Names(pre) && pre == [pre[0]] + pre[1..];
      SplitNames([pre[0]], pre[1..]);
      LookupPlaced(pre[1..], e, tail);
      assert (pre + [e] + tail)[1..] == pre[1..] + [e] + tail;
    }
  }

  lemma {:induction false} LookupAbsent(es: seq<Entry>, s: Session)
    ensures Lookup(es, s).None? <==> s !in Names(es)
  {
    if es == [] {
    } else {
      assert es == [es[0]] + es[1..];
      SplitNames([es[0]], es[1..]);
      LookupAbsent(es[1..], s);
    }
  }

  // ----- The registry -----------------------------------------------------------------

  class Registry {
    var entries: seq<Entry>

    constructor ()
      ensures entries == []
    {
      entries := [];
    }

    /** `bind_session_project`: the newest binding goes last, the oldest leave. */
    method BindSessionProject(s: Session, p: Project)
      modifies this
      ensures entries == Bound(old(entries), s, p)
      ensures Distinct(old(entries)) && |old(entries)| <= 512 ==>
                && (s !in Names(old(entries)) && |old(entries)| < 512 ==> entries == old(entries) + [Entry(s, p)])
                && (s !in Names(old(entries)) && |old(entries)| == 512 ==> entries == old(entries)[1..] + [Entry(s, p)])
                && forall i :: 0 <= i < |old(entries)| && old(entries)[i].session == s ==>
                     entries == old(entries)[..i] + old(entries)[i + 1..] + [Entry(s, p)]
    {
      if Distinct(entries) && |entries| <= 512 {
        BoundMeans(entries, s, p);
      }
      hide Distinct, Names;
      entries := Without(entries, s);
      entries := entries + [Entry(s, p)];
      while |entries| > MAX_SESSION_BINDINGS
        invariant Trim(entries) == Bound(old(entries), s, p)
        decreases |entries|
      {
        entries := entries[1..];
      }
    }

    /** `bound_project`. */
    function BoundProject(s: Option<Session>): Option<Project>
      reads this
    {
      if s.None? then None else Lookup(entries, s.value)
    }

    /** `clear_session_project`: the session's binding is gone, and the others keep their order. */
    method ClearSessionProject(s: Session)
      modifies this
      ensures entries == Without(old(entries), s)
      ensures s !in Names(entries) && BoundProject(Some(s)) == None
      ensures s !in Names(old(entries)) ==> entries == old(entries)
      ensures forall i :: 0 <= i < |old(entries)| && Distinct(old(entries)) && old(entries)[i].session == s ==>
                entries == old(entries)[..i] + old(entries)[i + 1..]
    {
      WithoutFacts(entries, s);
      forall i | 0 <= i < |entries| && Distinct(entries) && entries[i].session == s
        ensures Without(entries, s) == entries[..i] + entries[i + 1..]
      {
        WithoutAt(entries, i);
      }
      entries := Without(entries, s);
      LookupAbsent(entries, s);
    }
  }

  function Bound(es: seq<Entry>, s: Session, p: Project): seq<Entry> {
    Trim(Without(es, s) + [Entry(s, p)])
  }

  /** A session that is bound again moves to the end; a new one pushes the oldest out of a full
      registry. */
  lemma {:induction false} BoundMeans(es: seq<Entry>, s: Session, p: Project)
    requires Distinct(es) && |es| <= 512
    ensures s !in Names(es) && |es| < 512 ==> Bound(es, s, p) == es + [Entry(s, p)]
    ensures s !in Names(es) && |es| == 512 ==> Bound(es, s, p) == es[1..] + [Entry(s, p)]
    ensures forall i :: 0 <= i < |es| && es[i].session == s ==>
              Bound(es, s, p) == es[..i] + es[i + 1..] + [Entry(s, p)]
  {
    WithoutFacts(es, s);
    var longer := Without(es, s) + [Entry(s, p)];
    hide Names;
    if |longer| > 512 {
      assert longer[1..] == es[1..] + [Entry(s, p)] && Trim(longer[1..]) == longer[1..];
    }
    forall i | 0 <= i < |es| && es[i].session == s
      ensures Bound(es, s, p) == es[..i] + es[i + 1..] + [Entry(s, p)]
    {
      WithoutAt(es, i);
    }
  }

  // ----- Histories --------------------------------------------------------------------

  datatype Op = Bind(session: Session, project: Project) | Clear(session: Session)

  function Entries(ops: seq<Op>, n: nat): seq<Entry>
    requires n <= |ops|
  {
    if n == 0 then []
    else match ops[n - 1]
      case Bind(s, p) => Bound(Entries(ops, n - 1), s, p)
      case Clear(s) => Without(Entries(ops, n - 1), s)
  }

  /** The map without a bound on its size. */
  function Unbounded(ops: seq<Op>, n: nat): map<Session, Project>
    requires n <= |ops|
  {
    if n == 0 then map[]
    else match ops[n - 1]
      case Bind(s, p) => Unbounded(ops, n - 1)[s := p]
      case Clear(s) => Unbounded(ops, n - 1) - {s}
  }

  /** Position of the last bind of `s` among the first `n` operations, if not cleared since. */
  function LastBind(ops: seq<Op>, n: nat, s: Session): Option<nat>
    requires n <= |ops|
  {
    if n == 0 then None
    else if ops[n - 1].session == s then (if ops[n - 1].Bind? then Some(n - 1) else None)
    else LastBind(ops, n - 1, s)
  }

  /** Other sessions bound after operation `i` and not cleared by operation `n`. */
  function Later(ops: seq<Op>, i: nat, n: nat, s: Session): set<Session>
    requires i < n <= |ops|
    decreases n
  {
    if n == i + 1 || ops[n - 1].session == s then (if n == i + 1 then {} else Later(ops, i, n - 1, s))
    else if ops[n - 1].Bind? then Later(ops, i, n - 1, s) + {ops[n - 1].session}
    else Later(ops, i, n - 1, s) - {ops[n - 1].session}
  }

  /** Since operation `i` there have never been 512 newer bindings at once. */
  ghost predicate Kept(ops: seq<Op>, i: nat, n: nat, s: Session)
    requires i < n <= |ops|
  {
    forall t :: i < t <= n ==> |Later(ops, i, t, s)| < 512
  }

  lemma {:induction false} LastBindFacts(ops: seq<Op>, n: nat, s: Session)
    requires n <= |ops|
    ensures LastBind(ops, n, s).Some? <==> s in Unbounded(ops, n)
    ensures LastBind(ops, n, s).Some? ==>
              var i := LastBind(ops, n, s).value;
              i < n && ops[i].Bind? && ops[i].session == s && Unbounded(ops, n)[s] == ops[i].project
  {
    if n == 0 {
    } else {
      LastBindFacts(ops, n - 1, s);
    }
  }

  lemma {:induction false} TrimOne(es: seq<Entry>)
    requires |es| <= MAX_SESSION_BINDINGS + 1 && Distinct(es)
    ensures |Trim(es)| <= MAX_SESSION_BINDINGS && Distinct(Trim(es))
    ensures Trim(es) == if |es| > MAX_SESSION_BINDINGS then es[1..] else es
    ensures Names(Trim(es)) <= Names(es)
  {
    if |es| > MAX_SESSION_BINDINGS {
      assert Trim(es[1..]) == es[1..];
    }
  }

  lemma {:induction false} BoundFacts(es: seq<Entry>, s: Session, p: Project)
    requires |es| <= MAX_SESSION_BINDINGS && Distinct(es)
    ensures |Bound(es, s, p)| <= MAX_SESSION_BINDINGS && Distinct(Bound(es, s, p))
    ensures Names(Bound(es, s, p)) <= Names(es) + {s}
  {
    WithoutFacts(es, s);
    assert Names([Entry(s, p)]) == {s};
    DistinctJoin(Without(es, s), [Entry(s, p)]);
    SplitNames(Without(es, s), [Entry(s, p)]);
    TrimOne(Without(es, s) + [Entry(s, p)]);
  }

  /** A binding is there as soon as it is made and gone as soon as it is cleared. */
  lemma {:induction false} LatestCounts(ops: seq<Op>, n: nat)
    requires 0 < n <= |ops|
    ensures ops[n - 1].Bind? ==> Lookup(Entries(ops, n), ops[n - 1].session) == Some(ops[n - 1].project)
    ensures ops[n - 1].Clear? ==> Lookup(Entries(ops, n), ops[n - 1].session) == None
  {
    AlwaysBounded(ops, n - 1);
    var before, s := Entries(ops, n - 1), ops[n - 1].session;
    WithoutFacts(before, s);
    if ops[n - 1].Bind? {
      var pre, tail := JustBound(before, s, ops[n - 1].project);
      PlacedApart(Entries(ops, n), pre, Entry(s, ops[n - 1].project), tail);
      LookupPlaced(pre, Entry(s, ops[n - 1].project), tail);
    } else {
      LookupAbsent(Entries(ops, n), s);
    }
  }

  /** The registry never exceeds its cap and never holds a session twice. */
  lemma {:induction false} AlwaysBounded(ops: seq<Op>, n: nat)
    requires n <= |ops|
    ensures |Entries(ops, n)| <= 512 && Distinct(Entries(ops, n))
  {
    if n == 0 {
    } else {
      AlwaysBounded(ops, n - 1);
      match ops[n - 1]
      case Bind(s, p) => BoundFacts(Entries(ops, n - 1), s, p);
      case Clear(s) => WithoutFacts(Entries(ops, n - 1), s);
    }
  }

  /** Where one entry stands: `pre` are the older entries, `tail` the newer ones. */
  ghost predicate Placed(es: seq<Entry>, pre: seq<Entry>, e: Entry, tail: seq<Entry>) {
    es == pre + [e] + tail && Distinct(es)
  }

  lemma {:induction false} PlacedApart(es: seq<Entry>, pre: seq<Entry>, e: Entry, tail: seq<Entry>)
    requires Placed(es, pre, e, tail)
    ensures e.session !in Names(pre) && e.session !in Names(tail) && |Names(tail)| == |tail|
    ensures Names(es) == Names(pre) + {e.session} + Names(tail)
  {
    assert Names([e]) == {e.session};
    DistinctSplit(pre + [e], tail);
    DistinctSplit(pre, [e]);
    SplitNames(pre + [e], tail);
    SplitNames(pre, [e]);
    DistinctCount(tail);
  }

  lemma {:induction false} PlacedWithout(es: seq<Entry>, pre: seq<Entry>, e: Entry, tail: seq<Entry>, q: Session)
    requires Placed(es, pre, e, tail) && q != e.session
    ensures Placed(Without(es, q), Without(pre, q), e, Without(tail, q))
    ensures Names(Without(tail, q)) == Names(tail) - {q}
  {
    WithoutJoin(pre + [e], tail, q);
    WithoutJoin(pre, [e], q);
    WithoutFacts(es, q);
    WithoutFacts(tail, q);
    assert Without([e], q) == [e];
  }

  /** Another session is bound: the entry stays exactly if fewer than 512 are newer now. */
  lemma {:induction false} PlacedBind(es: seq<Entry>, pre: seq<Entry>, e: Entry, tail: seq<Entry>, q: Session,
            p: Project)
    returns (pre': seq<Entry>, tail': seq<Entry>)
    requires Placed(es, pre, e, tail) && q != e.session && |es| <= MAX_SESSION_BINDINGS
    ensures Names(tail') == Names(tail) + {q} && |Names(tail')| == |tail'|
    ensures if |tail'| < MAX_SESSION_BINDINGS then Placed(Bound(es, q, p), pre', e, tail')
            else e.session !in Names(Bound(es, q, p))
  {
    pre', tail' := Without(pre, q), Without(tail, q) + [Entry(q, p)];
    PlacedAppend(es, pre, e, tail, q, p);
    hide Names, Distinct, Placed;
    pre' := PlacedTrim(Without(es, q) + [Entry(q, p)], pre', e, tail');
  }

  lemma {:induction false} PlacedAppend(es: seq<Entry>, pre: seq<Entry>, e: Entry, tail: seq<Entry>, q: Session,
            p: Project)
    requires Placed(es, pre, e, tail) && q != e.session
    ensures Placed(Without(es, q) + [Entry(q, p)], Without(pre, q), e, Without(tail, q) + [Entry(q, p)])
    ensures Names(Without(tail, q) + [Entry(q, p)]) == Names(tail) + {q}
    ensures |Without(es, q)| <= |es|
  {
    var newer := [Entry(q, p)];
    PlacedWithout(es, pre, e, tail, q);
    WithoutFacts(es, q);
    assert Names(newer) == {q};
    SplitNames(Without(tail, q), newer);
    DistinctJoin(Without(es, q), newer);
    hide Names, Distinct;
    assert Without(es, q) + newer == Without(pre, q) + [e] + (Without(tail, q) + newer);
  }

  lemma {:induction false} PlacedTrim(longer: seq<Entry>, pre: seq<Entry>, e: Entry, tail: seq<Entry>)
    returns (pre': seq<Entry>)
    requires Placed(longer, pre, e, tail) && |longer| <= MAX_SESSION_BINDINGS + 1
    ensures |Names(tail)| == |tail|
    ensures if |tail| < MAX_SESSION_BINDINGS then Placed(Trim(longer), pre', e, tail) else e.session !in Names(Trim(longer))
  {
    PlacedApart(longer, pre, e, tail);
    TrimOne(longer);
    pre' := pre;
    if |longer| > MAX_SESSION_BINDINGS {
      if |tail| < MAX_SESSION_BINDINGS {
        assert longer[1..] == pre[1..] + [e] + tail;
        pre' := pre[1..];
      } else {
        assert longer[1..] == tail;
      }
    }
  }

  /** A kept binding is in the registry, and exactly the later bindings are newer. */
  lemma {:induction false} KeptIsPlaced(ops: seq<Op>, n: nat, s: Session, i: nat) returns (pre: seq<Entry>,
            tail: seq<Entry>)
    requires n <= |ops| && LastBind(ops, n, s) == Some(i) && i < n && Kept(ops, i, n, s)
    ensures ops[i].Bind? && Placed(Entries(ops, n), pre, Entry(s, ops[i].project), tail)
    ensures Names(tail) == Later(ops, i, n, s)
    decreases n
  {
    LastBindFacts(ops, n, s);
    AlwaysBounded(ops, n);
    AlwaysBounded(ops, n - 1);
    var before := Entries(ops, n - 1);
    if ops[n - 1].session == s {
      BoundFacts(before, s, ops[i].project);
      WithoutFacts(before, s);
      pre, tail := JustBound(before, s, ops[i].project);
    } else {
      LastBindFacts(ops, n - 1, s);
      pre, tail := KeptIsPlaced(ops, n - 1, s, i);
      var e := Entry(s, ops[i].project);
      if ops[n - 1].Bind? {
        pre, tail := PlacedBind(before, pre, e, tail, ops[n - 1].session, ops[n - 1].project);
        assert |Later(ops, i, n, s)| < MAX_SESSION_BINDINGS;
      } else {
        PlacedWithout(before, pre, e, tail, ops[n - 1].session);
        pre, tail := Without(pre, ops[n - 1].session), Without(tail, ops[n - 1].session);
      }
    }
  }

  lemma {:induction false} JustBound(es: seq<Entry>, s: Session, p: Project) returns (pre: seq<Entry>, tail: seq<Entry>)
    requires |es| <= MAX_SESSION_BINDINGS && Distinct(es)
    ensures Placed(Bound(es, s, p), pre, Entry(s, p), tail) && Names(tail) == {}
  {
    WithoutFacts(es, s);
    BoundFacts(es, s, p);
    assert Names([Entry(s, p)]) == {s};
    DistinctJoin(Without(es, s), [Entry(s, p)]);
    TrimOne(Without(es, s) + [Entry(s, p)]);
    tail := [];
    pre := Without(es, s);
    if |pre| + 1 > MAX_SESSION_BINDINGS {
      assert (pre + [Entry(s, p)])[1..] == pre[1..] + [Entry(s, p)];
      pre := pre[1..];
    }
    assert Bound(es, s, p) == pre + [Entry(s, p)] + tail;
  }

  /** A binding that was not kept is gone, and so is one that was cleared. */
  lemma {:induction false} NotKeptIsGone(ops: seq<Op>, n: nat, s: Session)
    requires n <= |ops|
    requires LastBind(ops, n, s).None? || (LastBind(ops, n, s).value < n && !Kept(ops, LastBind(ops, n, s).value, n, s))
    ensures s !in Names(Entries(ops, n))
    decreases n
  {
    if n == 0 {
    } else {
      AlwaysBounded(ops, n - 1);
      var before, op := Entries(ops, n - 1), ops[n - 1];
      if op.session == s {
        WithoutFacts(before, s);
      } else {
        StillGone(ops, n, s);
      }
    }
  }

  lemma {:induction false} StillGone(ops: seq<Op>, n: nat, s: Session)
    requires 0 < n <= |ops| && ops[n - 1].session != s
    requires LastBind(ops, n, s).None? || (LastBind(ops, n, s).value < n && !Kept(ops, LastBind(ops, n, s).value, n, s))
    ensures s !in Names(Entries(ops, n))
    decreases n, 0
  {
    AlwaysBounded(ops, n - 1);
    LastBindFacts(ops, n - 1, s);
    var before, op := Entries(ops, n - 1), ops[n - 1];
    if LastBind(ops, n, s).Some? && Kept(ops, LastBind(ops, n, s).value, n - 1, s) {
      var i := LastBind(ops, n, s).value;
      assert |Later(ops, i, n, s)| >= MAX_SESSION_BINDINGS;
      var pre, tail := KeptIsPlaced(ops, n - 1, s, i);
      if op.Bind? {
        pre, tail := PlacedBind(before, pre, Entry(s, ops[i].project), tail, op.session, op.project);
      } else {
        assert false;
      }
    } else {
      NotKeptIsGone(ops, n - 1, s);
      if op.Bind? {
        BoundFacts(before, op.session, op.project);
      } else {
        WithoutFacts(before, op.session);
      }
    }
  }

  /** The registry answers like the unbounded map, or not at all; it answers exactly for the
      bindings since which there have never been 512 newer uncleared ones at once. */
  lemma {:induction false} RefinesUnboundedMap(ops: seq<Op>, n: nat, s: Session)
    requires n <= |ops|
    ensures var answer := Lookup(Entries(ops, n), s);
            && (answer.Some? ==> s in Unbounded(ops, n) && answer.value == Unbounded(ops, n)[s])
            && (answer.Some? <==> LastBind(ops, n, s).Some? && LastBind(ops, n, s).value < n
                                  && Kept(ops, LastBind(ops, n, s).value, n, s))
  {
    LastBindFacts(ops, n, s);
    LookupAbsent(Entries(ops, n), s);
    if LastBind(ops, n, s).Some? && Kept(ops, LastBind(ops, n, s).value, n, s) {
      var i := LastBind(ops, n, s).value;
      var pre, tail := KeptIsPlaced(ops, n, s, i);
      PlacedApart(Entries(ops, n), pre, Entry(s, ops[i].project), tail);
      LookupPlaced(pre, Entry(s, ops[i].project), tail);
    } else {
      NotKeptIsGone(ops, n, s);
    }
  }

  /** All other sessions bound after operation `i`, cleared or not. */
  function OthersBound(ops: seq<Op>, i: nat, n: nat, s: Session): set<Session>
    requires i < n <= |ops|
  {
    set m | i < m < n && ops[m].Bind? && ops[m].session != s :: ops[m].session
  }

  lemma {:induction false} LaterWereBound(ops: seq<Op>, i: nat, t: nat, n: nat, s: Session)
    requires i < t <= n <= |ops|
    ensures Later(ops, i, t, s) <= OthersBound(ops, i, n, s)
    decreases t
  {
    if t == i + 1 {
    } else {
      LaterWereBound(ops, i, t - 1, n, s);
    }
  }

  /** Whenever fewer than 512 distinct other sessions were bound since `s` was, the bounded
      registry and the unbounded map agree on it. */
  lemma {:induction false} AgreesWhileFew(ops: seq<Op>, n: nat, s: Session)
    requires n <= |ops|
    requires LastBind(ops, n, s).Some? ==>
               LastBind(ops, n, s).value < n && |OthersBound(ops, LastBind(ops, n, s).value, n, s)| < 512
    ensures Lookup(Entries(ops, n), s) == if s in Unbounded(ops, n) then Some(Unbounded(ops, n)[s]) else None
  {
    RefinesUnboundedMap(ops, n, s);
    LastBindFacts(ops, n, s);
    if LastBind(ops, n, s).Some? {
      var i := LastBind(ops, n, s).value;
      forall t | i < t <= n
        ensures |Later(ops, i, t, s)| < MAX_SESSION_BINDINGS
      {
        LaterWereBound(ops, i, t, n, s);
        SubsetCount(Later(ops, i, t, s), OthersBound(ops, i, n, s));
      }
    }
  }
}
