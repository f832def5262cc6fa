/** What device enrollment does to the store: which mirror tables receive
    which rows, what stays untouched, and how many rows are added. */
module EnrollmentFacts {
  import opened Store
  import opened Fanout
  import opened Enrollment
  import Registry

  /** `t` is the mirror table of one of the collections `cs`. */
  predicate MirrorsOneOf(t: string, cs: seq<string>)
  {
    IsMirrorTable(t) && t[|MirrorPrefix|..] in cs
  }

  predicate Distinct(cs: seq<string>)
  {
    forall i, j :: 0 <= i < j < |cs| ==> cs[i] != cs[j]
  }

  /** Neither the snapshotted collections nor their mirror tables fail. */
  predicate Healthy(s: Session, cs: seq<string>)
  {
    forall c :: c in cs ==> c !in s.faults && MirrorTable(c) !in s.faults
  }

  /** The number of rows of `uid` across the collections `cs`. */
  function OwnedTotal(s: Session, uid: Id, cs: seq<string>): nat
  {
    if |cs| == 0 then 0 else |Owned(Rows(s, cs[0]), uid)| + OwnedTotal(s, uid, cs[1..])
  }

  lemma SnapshotCollectionsDistinct()
    ensures Distinct(SnapshotCollections)
  {
  }

  /** What the snapshot of one collection writes to table `t`. */
  lemma WrittenToFill(s: Session, uid: Id, ueid: Id, c: string, t: string)
    ensures WrittenTo(FillEffects(s, uid, ueid, c), t)
            == if t == MirrorTable(c) && MirrorTable(c) !in s.faults then MirrorRows(ueid, Fetched(s, c, uid)) else []
  {
    if MirrorTable(c) !in s.faults {
      WrittenToMirrorWrites(ueid, c, Fetched(s, c, uid), t);
    }
  }

  /** A table that is not the mirror table of a snapshotted collection gets
      no row. */
  lemma {:induction false} PlannedOutside(s: Session, uid: Id, ueid: Id, cs: seq<string>, t: string)
    requires !MirrorsOneOf(t, cs)
    ensures WrittenTo(Planned(s, uid, ueid, cs), t) == []
    decreases |cs|
  {
    if |cs| > 0 {
      MirrorTableShape(cs[0]);
      WrittenToFill(s, uid, ueid, cs[0], t);
      PlannedOutside(s, uid, ueid, cs[1..], t);
      WrittenToAppend(FillEffects(s, uid, ueid, cs[0]), Planned(s, uid, ueid, cs[1..]), t);
    }
  }

  /** The mirror table of the `k`-th collection receives exactly the mirror
      rows of that collection's objects owned by the user. */
  lemma {:induction false} PlannedInto(s: Session, uid: Id, ueid: Id, cs: seq<string>, k: nat)
    requires Distinct(cs) && k < |cs|
    ensures WrittenTo(Planned(s, uid, ueid, cs), MirrorTable(cs[k]))
            == if MirrorTable(cs[k]) in s.faults then [] else MirrorRows(ueid, Fetched(s, cs[k], uid))
    decreases |cs|
  {
    var t := MirrorTable(cs[k]);
    WrittenToAppend(FillEffects(s, uid, ueid, cs[0]), Planned(s, uid, ueid, cs[1..]), t);
    WrittenToFill(s, uid, ueid, cs[0], t);
    if k == 0 {
      MirrorTableShape(cs[0]);
      PlannedOutside(s, uid, ueid, cs[1..], t);
    } else {
      if t == MirrorTable(cs[0]) {
        MirrorTableInjective(cs[k], cs[0]);
      }
      assert cs[1..][k - 1] == cs[k];
      PlannedInto(s, uid, ueid, cs[1..], k - 1);
    }
  }

  /** Every planned write puts a dirty mirror row for the device into the
      mirror table of a snapshotted collection. */
  lemma {:induction false} PlannedAreMirrorWrites(s: Session, uid: Id, ueid: Id, cs: seq<string>)
    ensures forall e :: e in Planned(s, uid, ueid, cs) ==>
              && e.Wrote? && MirrorsOneOf(e.collection, cs)
              && e.row.Mirror? && e.row.link.userEndID == ueid && e.row.link.dirty
    decreases |cs|
  {
    if |cs| > 0 {
      PlannedAreMirrorWrites(s, uid, ueid, cs[1..]);
      MirrorTableShape(cs[0]);
      forall c | c in cs[1..] ensures c in cs { }
    }
  }

  /** The snapshot writes at most one row per owned object, and exactly one
      when nothing fails. */
  lemma {:induction false} PlannedSize(s: Session, uid: Id, ueid: Id, cs: seq<string>)
    ensures |Planned(s, uid, ueid, cs)| <= OwnedTotal(s, uid, cs)
    ensures Healthy(s, cs) ==> |Planned(s, uid, ueid, cs)| == OwnedTotal(s, uid, cs)
    decreases |cs|
  {
    if |cs| > 0 {
      PlannedSize(s, uid, ueid, cs[1..]);
      assert Healthy(s, cs) ==> Healthy(s, cs[1..]) by {
        forall c | c in cs[1..] ensures c in cs { }
      }
    }
  }

  /** `s'` is `s` after the token header `token` and the snapshot of `cs`. */
  ghost predicate EnrolledFrom(s: Session, s': Session, token: string, uid: Id, ueid: Id, cs: seq<string>)
  {
    Extends(s, s', [SetHeader(TokenHeader, token)] + Planned(s, uid, ueid, cs))
  }

  lemma EnrollIsEnrolledFrom(s: Session, uid: Id, ueid: Id, secret: string, sign: Signer)
    requires sign(TokenClaims(uid, ueid), secret).Ok?
    ensures Enroll(s, uid, ueid, secret, sign).Next?
    ensures EnrolledFrom(s, Enroll(s, uid, ueid, secret, sign).session, sign(TokenClaims(uid, ueid), secret).value,
                         uid, ueid, SnapshotCollections)
  {
  }

  /** A header effect adds no row anywhere. */
  lemma WrittenToAfterHeader(name: string, value: string, p: seq<Effect>, t: string)
    ensures WrittenTo([SetHeader(name, value)] + p, t) == WrittenTo(p, t)
  {
    assert ([SetHeader(name, value)] + p)[1..] == p;
  }

  lemma EnrolledRows(s: Session, s': Session, token: string, uid: Id, ueid: Id, cs: seq<string>, t: string)
    requires EnrolledFrom(s, s', token, uid, ueid, cs)
    ensures Rows(s', t) == Rows(s, t) + WrittenTo(Planned(s, uid, ueid, cs), t)
  {
    var p := Planned(s, uid, ueid, cs);
    assert Rows(s', t) == Rows(s, t) + WrittenTo([SetHeader(TokenHeader, token)] + p, t);
    WrittenToAfterHeader(TokenHeader, token, p, t);
  }

  /** For any distinct collections, the `k`-th mirror table gains one dirty
      row per owned row of the `k`-th collection, or nothing on a failure. */
  lemma {:induction false} EnrolledMirrorTable(s: Session, s': Session, token: string, uid: Id, ueid: Id, cs: seq<string>, k: nat)
    requires EnrolledFrom(s, s', token, uid, ueid, cs)
    requires Distinct(cs) && k < |cs|
    ensures Rows(s', MirrorTable(cs[k]))
            == Rows(s, MirrorTable(cs[k]))
               + if cs[k] in s.faults || MirrorTable(cs[k]) in s.faults then [] else MirrorRows(ueid, Owned(Rows(s, cs[k]), uid))
  {
    var t := MirrorTable(cs[k]);
    EnrolledRows(s, s', token, uid, ueid, cs, t);
    PlannedInto(s, uid, ueid, cs, k);
    if cs[k] in s.faults {
      assert Fetched(s, cs[k], uid) == [];
      assert MirrorRows(ueid, []) == [];
    } else {
      assert Fetched(s, cs[k], uid) == Owned(Rows(s, cs[k]), uid);
    }
  }

  /** A table that mirrors none of the snapshotted collections is unchanged. */
  lemma {:induction false} EnrolledOutside(s: Session, s': Session, token: string, uid: Id, ueid: Id, cs: seq<string>, t: string)
    requires EnrolledFrom(s, s', token, uid, ueid, cs)
    requires !MirrorsOneOf(t, cs)
    ensures Rows(s', t) == Rows(s, t)
  {
    EnrolledRows(s, s', token, uid, ueid, cs, t);
    PlannedOutside(s, uid, ueid, cs, t);
  }

  /** The trace after enrollment: the old trace, the header, then only dirty
      mirror writes for the device, at most one per owned row. */
  lemma {:induction false} EnrolledEffects(s: Session, s': Session, token: string, uid: Id, ueid: Id, cs: seq<string>)
    requires EnrolledFrom(s, s', token, uid, ueid, cs)
    ensures |s'.effects| > |s.effects|
    ensures s'.effects[..|s.effects|] == s.effects
    ensures s'.effects[|s.effects|] == SetHeader(TokenHeader, token)
    ensures forall i :: |s.effects| < i < |s'.effects| ==>
              && s'.effects[i].Wrote?
              && MirrorsOneOf(s'.effects[i].collection, cs)
              && s'.effects[i].row.Mirror?
              && s'.effects[i].row.link.userEndID == ueid
              && s'.effects[i].row.link.dirty
    ensures |s'.effects| <= |s.effects| + 1 + OwnedTotal(s, uid, cs)
    ensures Healthy(s, cs) ==> |s'.effects| == |s.effects| + 1 + OwnedTotal(s, uid, cs)
  {
    var p := Planned(s, uid, ueid, cs);
    PlannedAreMirrorWrites(s, uid, ueid, cs);
    PlannedSize(s, uid, ueid, cs);
    forall i | |s.effects| < i < |s'.effects|
      ensures s'.effects[i] in p
    {
      assert s'.effects[i] == p[i - |s.effects| - 1];
    }
  }

  /** On enrollment, the mirror table of each of the seven snapshotted
      collections gains one dirty row per row of that collection owned by the
      user, in storage order, unless the query or the mirror table fails, in
      which case it gains nothing. */
  lemma EnrollMirrorsOwnedRows(s: Session, uid: Id, ueid: Id, secret: string, sign: Signer, k: nat)
    requires k < |SnapshotCollections|
    requires sign(TokenClaims(uid, ueid), secret).Ok?
    ensures var c := SnapshotCollections[k];
      Rows(Enroll(s, uid, ueid, secret, sign).session, MirrorTable(c))
      == Rows(s, MirrorTable(c))
         + if c in s.faults || MirrorTable(c) in s.faults then [] else MirrorRows(ueid, Owned(Rows(s, c), uid))
  {
    EnrollIsEnrolledFrom(s, uid, ueid, secret, sign);
    SnapshotCollectionsDistinct();
    EnrolledMirrorTable(s, Enroll(s, uid, ueid, secret, sign).session, sign(TokenClaims(uid, ueid), secret).value,
                        uid, ueid, SnapshotCollections, k);
  }

  /** Enrollment changes no table other than the seven mirror tables: the
      snapshotted collections themselves, `userend_plantsharings`,
      `userend_users` and every other table keep their rows. */
  lemma EnrollTouchesOnlySnapshotMirrors(s: Session, uid: Id, ueid: Id, secret: string, sign: Signer, t: string)
    requires !MirrorsOneOf(t, SnapshotCollections)
    ensures Rows(Enroll(s, uid, ueid, secret, sign).session, t) == Rows(s, t)
  {
    if sign(TokenClaims(uid, ueid), secret).Ok? {
      EnrollIsEnrolledFrom(s, uid, ueid, secret, sign);
      EnrolledOutside(s, Enroll(s, uid, ueid, secret, sign).session, sign(TokenClaims(uid, ueid), secret).value,
                      uid, ueid, SnapshotCollections, t);
    }
  }

  /** Only the seven snapshotted collections are mirrored: the mirror table
      of any other collection (`plantsharings`, `users`, `userends`, ...)
      keeps its rows. */
  lemma EnrollMirrorsNothingElse(s: Session, uid: Id, ueid: Id, secret: string, sign: Signer, c: string)
    requires c !in SnapshotCollections
    ensures Rows(Enroll(s, uid, ueid, secret, sign).session, MirrorTable(c)) == Rows(s, MirrorTable(c))
  {
    MirrorTableShape(c);
    EnrollTouchesOnlySnapshotMirrors(s, uid, ueid, secret, sign, MirrorTable(c));
  }

  /** The token header is the first thing enrollment does, and everything
      after it is a dirty mirror row for the new device written to one of the
      seven mirror tables. */
  lemma EnrollTokenThenMirrors(s: Session, uid: Id, ueid: Id, secret: string, sign: Signer)
    requires sign(TokenClaims(uid, ueid), secret).Ok?
    ensures var o := Enroll(s, uid, ueid, secret, sign);
      && o.Next?
      && |o.session.effects| > |s.effects|
      && o.session.effects[..|s.effects|] == s.effects
      && o.session.effects[|s.effects|] == SetHeader(TokenHeader, sign(TokenClaims(uid, ueid), secret).value)
      && (forall i :: |s.effects| < i < |o.session.effects| ==>
            && o.session.effects[i].Wrote?
            && MirrorsOneOf(o.session.effects[i].collection, SnapshotCollections)
            && o.session.effects[i].row.Mirror?
            && o.session.effects[i].row.link.userEndID == ueid
            && o.session.effects[i].row.link.dirty)
  {
    EnrollIsEnrolledFrom(s, uid, ueid, secret, sign);
    EnrolledEffects(s, Enroll(s, uid, ueid, secret, sign).session, sign(TokenClaims(uid, ueid), secret).value,
                    uid, ueid, SnapshotCollections);
  }

  /** Enrollment adds, besides the header, one mirror row per row the user
      owns across the seven collections; fewer only when a query or an insert
      fails. */
  lemma EnrollMirrorCount(s: Session, uid: Id, ueid: Id, secret: string, sign: Signer)
    requires sign(TokenClaims(uid, ueid), secret).Ok?
    ensures var o := Enroll(s, uid, ueid, secret, sign);
      && |o.session.effects| <= |s.effects| + 1 + OwnedTotal(s, uid, SnapshotCollections)
      && (Healthy(s, SnapshotCollections) ==>
            |o.session.effects| == |s.effects| + 1 + OwnedTotal(s, uid, SnapshotCollections))
  {
    EnrollIsEnrolledFrom(s, uid, ueid, secret, sign);
    EnrolledEffects(s, Enroll(s, uid, ueid, secret, sign).session, sign(TokenClaims(uid, ueid), secret).value,
                    uid, ueid, SnapshotCollections);
  }

  /** The snapshot covers the collection of every resource kind except users,
      devices themselves (`userends`) and plant sharings. */
  lemma SnapshotKinds(k: Registry.Kind)
    ensures Registry.CollectionOf(k) in SnapshotCollections
            <==> k != Registry.Users && k != Registry.UserEnds && k != Registry.PlantSharings
  {
  }

  /** Creating a box fans out to the devices' mirror table, whereas enrolling
      a device mirrors boxes into their own mirror table. */
  lemma BoxMirrorTablesDiffer()
    ensures Registry.Describe(Registry.Boxes).postActions
            == [Registry.CreateUserEndObjects(MirrorTable("devices"), "DeviceID")]
    ensures "boxes" in SnapshotCollections && MirrorTable("boxes") != MirrorTable("devices")
  {
    assert MirrorTable("devices") == "userend_devices";
    assert MirrorTable("boxes")[8] != MirrorTable("devices")[8];
  }

  /** User `a` owns box `b1` and plant `p1` and nothing else; enrolling
      device `d1` writes the token header and exactly two mirror rows, one for
      `b1` in `userend_boxes` and one for `p1` in `userend_plants`. */
  lemma EnrollScenario(s: Session, a: Id, b1: Id, p1: Id, d1: Id, secret: string, sign: Signer)
    requires s.faults == map[]
    requires Rows(s, "boxes") == [Resource(Object(b1, a))]
    requires Rows(s, "plants") == [Resource(Object(p1, a))]
    requires forall c :: c in SnapshotCollections[2..] ==> Rows(s, c) == []
    requires Rows(s, "userend_boxes") == [] && Rows(s, "userend_plants") == []
    requires sign(TokenClaims(a, d1), secret).Ok?
    ensures var o := Enroll(s, a, d1, secret, sign);
      && o.Next?
      && Rows(o.session, "userend_boxes") == [Mirror(UserEndObject(d1, b1, true))]
      && Rows(o.session, "userend_plants") == [Mirror(UserEndObject(d1, p1, true))]
      && |o.session.effects| == |s.effects| + 3
  {
    var o := Enroll(s, a, d1, secret, sign);
    var box, plant := Object(b1, a), Object(p1, a);
    EnrollIsEnrolledFrom(s, a, d1, secret, sign);
    ScenarioNames();
    OwnedSingleton(box, a);
    OwnedSingleton(plant, a);
    MirrorRowsSingleton(d1, box);
    MirrorRowsSingleton(d1, plant);
    EnrollMirrorsOwnedRows(s, a, d1, secret, sign, 0);
    assert Rows(o.session, "userend_boxes") == [] + MirrorRows(d1, [box]);
    EnrollMirrorsOwnedRows(s, a, d1, secret, sign, 1);
    assert Rows(o.session, "userend_plants") == [] + MirrorRows(d1, [plant]);
    ScenarioTotal(s, a, b1, p1);
    assert Healthy(s, SnapshotCollections);
    EnrollMirrorCount(s, a, d1, secret, sign);
  }

  lemma ScenarioTotal(s: Session, a: Id, b1: Id, p1: Id)
    requires Rows(s, "boxes") == [Resource(Object(b1, a))]
    requires Rows(s, "plants") == [Resource(Object(p1, a))]
    requires forall c :: c in SnapshotCollections[2..] ==> Rows(s, c) == []
    ensures OwnedTotal(s, a, SnapshotCollections) == 2
  {
    OwnedSingleton(Object(b1, a), a);
    OwnedSingleton(Object(p1, a), a);
    OwnedTotalEmpty(s, a, SnapshotCollections[2..]);
    assert SnapshotCollections[1..][1..] == SnapshotCollections[2..];
  }

  lemma ScenarioNames()
    ensures SnapshotCollections[0] == "boxes" && SnapshotCollections[1] == "plants"
    ensures MirrorTable("boxes") == "userend_boxes" && MirrorTable("plants") == "userend_plants"
  {
  }

  lemma MirrorRowsSingleton(ueid: Id, o: Object)
    ensures MirrorRows(ueid, [o]) == [Mirror(UserEndObject(ueid, o.id, true))]
  {
  }

  lemma OwnedSingleton(o: Object, uid: Id)
    requires o.userID == uid
    ensures Owned([Resource(o)], uid) == [o]
  {
    assert [Resource(o)][1..] == [];
  }

  lemma {:induction false} OwnedTotalEmpty(s: Session, uid: Id, cs: seq<string>)
    requires forall c :: c in cs ==> Rows(s, c) == []
    ensures OwnedTotal(s, uid, cs) == 0
    decreases |cs|
  {
    if |cs| > 0 {
      assert cs[0] in cs;
      OwnedTotalEmpty(s, uid, cs[1..]);
    }
  }
}
