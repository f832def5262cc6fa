/** `fillUserEnd`: one mirror row per object, marking it as still to be synced
    to a given device. */
module Fanout {
  import opened Store

  const MirrorPrefix := "userend_"

  /** The mirror table of a collection, `userend_<collection>`. */
  function MirrorTable(c: string): string
  {
    MirrorPrefix + c
  }

  predicate IsMirrorTable(t: string)
  {
    |MirrorPrefix| <= |t| && t[..|MirrorPrefix|] == MirrorPrefix
  }

  lemma MirrorTableShape(c: string)
    ensures IsMirrorTable(MirrorTable(c))
    ensures MirrorTable(c)[|MirrorPrefix|..] == c
  {
    assert MirrorTable(c)[..|MirrorPrefix|] == MirrorPrefix;
  }

  /** Every mirror table name starts with the prefix's first letter. */
  lemma MirrorTableInitial(t: string)
    requires IsMirrorTable(t)
    ensures |t| > 0 && t[0] == 'u'
  {
    assert t[0] == t[..|MirrorPrefix|][0];
  }

  /** Distinct collections have distinct mirror tables. */
  lemma MirrorTableInjective(c1: string, c2: string)
    requires MirrorTable(c1) == MirrorTable(c2)
    ensures c1 == c2
  {
    assert c1 == MirrorTable(c1)[|MirrorPrefix|..];
    assert c2 == MirrorTable(c2)[|MirrorPrefix|..];
  }

  /** The mirror row that tells device `ueid` to fetch object `o`. */
  function MirrorOf(ueid: Id, o: Object): Row
  {
    Mirror(UserEndObject(ueid, o.id, true))
  }

  /** One mirror row per object of `all`, in the same order. */
  function MirrorRows(ueid: Id, all: seq<Object>): seq<Row>
  {
    seq(|all|, i requires 0 <= i < |all| => MirrorOf(ueid, all[i]))
  }

  /** The writes that mirror every object of `all` into `userend_<c>`. */
  function MirrorWrites(ueid: Id, c: string, all: seq<Object>): seq<Effect>
  {
    seq(|all|, i requires 0 <= i < |all| => Wrote(MirrorTable(c), MirrorOf(ueid, all[i])))
  }

  /** Inserts a mirror row for each object of `all` into `userend_<c>`, one by
      one in iteration order; a failed insert is skipped and its error dropped,
      so the function cannot fail. */
  function FillUserEnd(s: Session, ueid: Id, c: string, all: seq<Object>): (s': Session)
    ensures MirrorTable(c) in s.faults ==> s' == s
    ensures MirrorTable(c) !in s.faults ==> Extends(s, s', MirrorWrites(ueid, c, all))
    decreases |all|
  {
    if |all| == 0 then
      ExtendsNothing(s);
      assert MirrorWrites(ueid, c, all) == [];
      s
    else
      var s1 := match Insert(s, MirrorTable(c), MirrorOf(ueid, all[0]))
                case Ok(next) => next
                case Err(_) => s;
      var s' := FillUserEnd(s1, ueid, c, all[1..]);
      if MirrorTable(c) in s.faults then s'
      else
        ExtendsTrans(s, s1, s', [Wrote(MirrorTable(c), MirrorOf(ueid, all[0]))], MirrorWrites(ueid, c, all[1..]));
        assert [Wrote(MirrorTable(c), MirrorOf(ueid, all[0]))] + MirrorWrites(ueid, c, all[1..])
               == MirrorWrites(ueid, c, all);
        s'
  }

  /** The writes of `fillUserEnd` land in `userend_<c>` only. */
  lemma {:induction false} WrittenToMirrorWrites(ueid: Id, c: string, all: seq<Object>, t: string)
    ensures WrittenTo(MirrorWrites(ueid, c, all), t) == if t == MirrorTable(c) then MirrorRows(ueid, all) else []
    decreases |all|
  {
    if |all| == 0 {
      assert MirrorWrites(ueid, c, all) == [];
      assert MirrorRows(ueid, all) == [];
    } else {
      assert MirrorWrites(ueid, c, all)[1..] == MirrorWrites(ueid, c, all[1..]);
      WrittenToMirrorWrites(ueid, c, all[1..], t);
      assert MirrorRows(ueid, all) == [MirrorOf(ueid, all[0])] + MirrorRows(ueid, all[1..]);
    }
  }

  /** On a working mirror table, `fillUserEnd` appends exactly one row per
      object, in iteration order, each naming the device, the object and
      `dirty = true`; no other collection changes. */
  lemma FillUserEndRows(s: Session, ueid: Id, c: string, all: seq<Object>)
    requires MirrorTable(c) !in s.faults
    ensures var s' := FillUserEnd(s, ueid, c, all);
      && |Rows(s', MirrorTable(c))| == |Rows(s, MirrorTable(c))| + |all|
      && Rows(s', MirrorTable(c))[..|Rows(s, MirrorTable(c))|] == Rows(s, MirrorTable(c))
      && (forall i :: 0 <= i < |all| ==>
            Rows(s', MirrorTable(c))[|Rows(s, MirrorTable(c))| + i]
            == Mirror(UserEndObject(ueid, all[i].id, true)))
      && (forall t :: t != MirrorTable(c) ==> Rows(s', t) == Rows(s, t))
  {
    var s' := FillUserEnd(s, ueid, c, all);
    forall t
      ensures Rows(s', t) == Rows(s, t) + (if t == MirrorTable(c) then MirrorRows(ueid, all) else [])
    {
      WrittenToMirrorWrites(ueid, c, all, t);
    }
  }

  /** `fillUserEnd` does not deduplicate: running it twice with the same
      arguments leaves two mirror rows per object. */
  lemma FillUserEndTwice(s: Session, ueid: Id, c: string, all: seq<Object>)
    requires MirrorTable(c) !in s.faults
    ensures var s2 := FillUserEnd(FillUserEnd(s, ueid, c, all), ueid, c, all);
      && Rows(s2, MirrorTable(c)) == Rows(s, MirrorTable(c)) + MirrorRows(ueid, all) + MirrorRows(ueid, all)
      && forall o :: o in all ==>
           multiset(Rows(s2, MirrorTable(c)))[MirrorOf(ueid, o)]
           >= multiset(Rows(s, MirrorTable(c)))[MirrorOf(ueid, o)] + 2
  {
    var t := MirrorTable(c);
    var m := MirrorRows(ueid, all);
    var s1 := FillUserEnd(s, ueid, c, all);
    var s2 := FillUserEnd(s1, ueid, c, all);
    WrittenToMirrorWrites(ueid, c, all, t);
    assert Rows(s1, t) == Rows(s, t) + m;
    assert Rows(s2, t) == Rows(s1, t) + m;
    forall o | o in all
      ensures multiset(Rows(s2, t))[MirrorOf(ueid, o)] >= multiset(Rows(s, t))[MirrorOf(ueid, o)] + 2
    {
      var i :| 0 <= i < |all| && all[i] == o;
      assert m[i] == MirrorOf(ueid, o);
      assert multiset(m)[MirrorOf(ueid, o)] >= 1;
      assert multiset(Rows(s2, t)) == multiset(Rows(s, t)) + multiset(m) + multiset(m);
    }
  }
}
