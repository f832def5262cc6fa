/** The post-action run after a new device (`userends` row) is inserted: it
    mints the device token, returns it in a response header, and snapshots
    the user's existing data into the device's mirror tables. */
module Enrollment {
  import opened Store
  import opened Http
  import opened Fanout

  const TokenHeader := "x-sgl-token"
  const UserIDClaim := "userID"
  const UserEndIDClaim := "userEndID"

  /** The collections copied into the new device's mirror tables, in the order
      the snapshot visits them. */
  const SnapshotCollections: seq<string> :=
    ["boxes", "plants", "timelapses", "devices", "feeds", "feedentries", "feedmedias"]

  type Claims = map<string, string>

  /** The token-signing collaborator: (claims, secret) to a signed token, or
      an error. */
  type Signer = (Claims, string) -> Result<string>

  /** The claims of a device token: the owner and the device, nothing else. */
  function TokenClaims(uid: Id, ueid: Id): (claims: Claims)
    ensures claims.Keys == {UserIDClaim, UserEndIDClaim}
    ensures claims[UserIDClaim] == uid && claims[UserEndIDClaim] == ueid
  {
    map[UserIDClaim := uid, UserEndIDClaim := ueid]
  }

  /** The objects of `c` owned by `uid`; a failed query leaves the list empty,
      and its error is dropped. */
  function Fetched(s: Session, c: string, uid: Id): (objs: seq<Object>)
    ensures c in s.faults ==> objs == []
    ensures c !in s.faults ==>
              forall o :: multiset(objs)[o] == (if o.userID == uid then multiset(Rows(s, c))[Resource(o)] else 0)
  {
    match SelectOwned(s, c, uid)
    case Ok(objs) => objs
    case Err(_) => []
  }

  /** What `fillUserEnd` writes for collection `c`: nothing when the mirror
      table is faulty, otherwise one mirror write per fetched object. */
  function FillEffects(s: Session, uid: Id, ueid: Id, c: string): seq<Effect>
  {
    if MirrorTable(c) in s.faults then [] else MirrorWrites(ueid, c, Fetched(s, c, uid))
  }

  /** The writes of a snapshot over `cs`, all judged against the store as it
      was before the snapshot started. */
  function Planned(s: Session, uid: Id, ueid: Id, cs: seq<string>): seq<Effect>
  {
    if |cs| == 0 then [] else FillEffects(s, uid, ueid, cs[0]) + Planned(s, uid, ueid, cs[1..])
  }

  /** Collection names that are not themselves mirror tables. */
  predicate Plain(cs: seq<string>)
  {
    forall c :: c in cs ==> !IsMirrorTable(c)
  }

  lemma SnapshotCollectionsPlain()
    ensures Plain(SnapshotCollections)
  {
    forall c | c in SnapshotCollections
      ensures !IsMirrorTable(c)
    {
      if IsMirrorTable(c) {
        MirrorTableInitial(c);
      }
    }
  }

  /** Writing mirror rows for `c` leaves every plain collection untouched. */
  lemma FillEffectsFrame(s: Session, uid: Id, ueid: Id, c: string, t: string)
    requires !IsMirrorTable(t)
    ensures WrittenTo(FillEffects(s, uid, ueid, c), t) == []
  {
    MirrorTableShape(c);
    if MirrorTable(c) !in s.faults {
      WrittenToMirrorWrites(ueid, c, Fetched(s, c, uid), t);
    }
  }

  /** The planned writes depend on the store only through the faults and the
      rows of the collections being snapshotted. */
  lemma {:induction false} PlannedFrame(s: Session, s1: Session, uid: Id, ueid: Id, cs: seq<string>)
    requires s1.faults == s.faults
    requires forall c :: c in cs ==> Rows(s1, c) == Rows(s, c)
    ensures Planned(s1, uid, ueid, cs) == Planned(s, uid, ueid, cs)
    decreases |cs|
  {
    if |cs| > 0 {
      assert cs[0] in cs;
      PlannedFrame(s, s1, uid, ueid, cs[1..]);
    }
  }

  /** Mirrors the user's rows of every collection of `cs`, one collection after
      the other, into the device's mirror tables. */
  function Snapshot(s: Session, uid: Id, ueid: Id, cs: seq<string>): (s': Session)
    requires Plain(cs)
    ensures Extends(s, s', Planned(s, uid, ueid, cs))
    decreases |cs|
  {
    if |cs| == 0 then
      ExtendsNothing(s);
      s
    else
      var e0 := FillEffects(s, uid, ueid, cs[0]);
      var s1 := FillUserEnd(s, ueid, cs[0], Fetched(s, cs[0], uid));
      assert Extends(s, s1, e0) by {
        if MirrorTable(cs[0]) in s.faults { ExtendsNothing(s); }
      }
      var s' := Snapshot(s1, uid, ueid, cs[1..]);
      assert Planned(s1, uid, ueid, cs[1..]) == Planned(s, uid, ueid, cs[1..]) by {
        forall c | c in cs[1..]
          ensures Rows(s1, c) == Rows(s, c)
        {
          FillEffectsFrame(s, uid, ueid, cs[0], c);
        }
        PlannedFrame(s, s1, uid, ueid, cs[1..]);
      }
      ExtendsTrans(s, s1, s', e0, Planned(s, uid, ueid, cs[1..]));
      s'
  }

  /** Setting the header and then snapshotting `cs` performs the header effect
      followed by the writes planned against the original store. */
  lemma HeaderThenSnapshot(s: Session, token: string, uid: Id, ueid: Id, cs: seq<string>)
    requires Plain(cs)
    ensures Extends(s, Snapshot(SetResponseHeader(s, TokenHeader, token), uid, ueid, cs),
                    [SetHeader(TokenHeader, token)] + Planned(s, uid, ueid, cs))
  {
    var s1 := SetResponseHeader(s, TokenHeader, token);
    var s2 := Snapshot(s1, uid, ueid, cs);
    PlannedFrame(s, s1, uid, ueid, cs);
    ExtendsTrans(s, s1, s2, [SetHeader(TokenHeader, token)], Planned(s, uid, ueid, cs));
  }

  /** Mints the device token, sets it in the response header and snapshots the
      user's data for the device. Only a signing failure stops the request;
      failed queries and inserts of the snapshot are ignored. */
  function Enroll(s: Session, uid: Id, ueid: Id, secret: string, sign: Signer): (o: Handled<()>)
    ensures o.Next? <==> sign(TokenClaims(uid, ueid), secret).Ok?
    ensures o.Halt? ==> o == Halt(s, StatusInternalServerError, sign(TokenClaims(uid, ueid), secret).message)
    ensures o.Next? ==>
              Extends(s, o.session, [SetHeader(TokenHeader, sign(TokenClaims(uid, ueid), secret).value)]
                                    + Planned(s, uid, ueid, SnapshotCollections))
  {
    match sign(TokenClaims(uid, ueid), secret)
    case Err(e) => Halt(s, StatusInternalServerError, e)
    case Ok(token) =>
      SnapshotCollectionsPlain();
      var s2 := Snapshot(SetResponseHeader(s, TokenHeader, token), uid, ueid, SnapshotCollections);
      HeaderThenSnapshot(s, token, uid, ueid, SnapshotCollections);
      Next(s2, ())
  }
}
