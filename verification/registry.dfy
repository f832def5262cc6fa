/** The static configuration of every create endpoint: the collection a kind
    is stored in, the middleware that runs before the insert and the
    middleware that runs after it. The generic stages (`setUserID`,
    `checkAccessRight`, `createUserEndObjects`) are defined outside
    `insert.go` and are not part of this model: a stage is recorded only with
    the arguments the endpoint passes to it. */
module Registry {
  import opened Fanout

  datatype Kind =
    | Users | UserEnds | Boxes | Plants | Timelapses | Devices | Feeds | FeedEntries | FeedMedias | PlantSharings

  datatype Stage =
    /** `setUserID`, which takes no argument. */
    | SetUserID
    /** `checkAccessRight`, given a parent collection, the name of the field
        of the new object that refers to it, and a required flag. */
    | CheckAccessRight(collection: string, field: string, required: bool)
    /** `createUserEndObjects`, given a mirror table and a field name. */
    | CreateUserEndObjects(collection: string, field: string)
    /** The nickname-uniqueness and password-hashing check (module CreateUser). */
    | UniqueNickname
    /** Token minting and data snapshot for a new device (module Enrollment). */
    | EnrollDevice

  datatype Descriptor = Descriptor(collection: string, preChecks: seq<Stage>, postActions: seq<Stage>)

  /** The table each kind is stored in. */
  function CollectionOf(k: Kind): string
  {
    match k
    case Users => "users"
    case UserEnds => "userends"
    case Boxes => "boxes"
    case Plants => "plants"
    case Timelapses => "timelapses"
    case Devices => "devices"
    case Feeds => "feeds"
    case FeedEntries => "feedentries"
    case FeedMedias => "feedmedias"
    case PlantSharings => "plantsharings"
  }

  /** The field by which a child row or a mirror row references a row of `k`.
      Only the values for kinds that occur as a parent or as a fan-out target
      appear in the endpoint configuration; the values for users, userends and
      plantsharings are placeholders that no configured stage uses. */
  function IdField(k: Kind): string
  {
    match k
    case Users => "UserID"
    case UserEnds => "UserEndID"
    case Boxes => "BoxID"
    case Plants => "PlantID"
    case Timelapses => "TimelapseID"
    case Devices => "DeviceID"
    case Feeds => "FeedID"
    case FeedEntries => "FeedEntryID"
    case FeedMedias => "FeedMediaID"
    case PlantSharings => "PlantSharingID"
  }

  /** The ownership graph, read off the access-check arguments: the kind
      whose collection a new row of `k` is checked against. */
  function Parent(k: Kind): Option<Kind>
  {
    match k
    case Boxes => Some(Devices)
    case Plants => Some(Boxes)
    case Timelapses => Some(Plants)
    case FeedEntries => Some(Feeds)
    case FeedMedias => Some(FeedEntries)
    case PlantSharings => Some(FeedEntries)
    case _ => None
  }

  datatype Option<T> = None | Some(value: T)

  /** The number of kinds; no chain of parents can be longer. */
  const KindCount: nat := 10

  /** The kinds met by following `Parent` from `k`, at most `steps` times. */
  function Climb(k: Kind, steps: nat): (chain: seq<Kind>)
    ensures |chain| <= steps
    ensures |chain| > 0 ==> Parent(k) == Some(chain[0])
    ensures forall i :: 0 <= i < |chain| - 1 ==> Parent(chain[i]) == Some(chain[i + 1])
    decreases steps
  {
    if steps == 0 then []
    else match Parent(k)
      case None => []
      case Some(p) => [p] + Climb(p, steps - 1)
  }

  /** The kind whose mirror table a new row of `k` fans out to. Boxes fan out
      to the devices' mirror table, as the configuration is written. */
  function MirrorKind(k: Kind): Option<Kind>
  {
    match k
    case Users => None
    case UserEnds => None
    case PlantSharings => None
    case Boxes => Some(Devices)
    case _ => Some(k)
  }

  /** The configuration of each create endpoint. */
  function Describe(k: Kind): (d: Descriptor)
    ensures d.collection == CollectionOf(k)
    // `setUserID` runs first, and every access check runs after it
    ensures k != Users ==> |d.preChecks| > 0 && d.preChecks[0] == SetUserID
    ensures forall i :: 0 <= i < |d.preChecks| && d.preChecks[i].CheckAccessRight? ==> 0 < i && d.preChecks[0] == SetUserID
    // one stage per kind, plus one access check for a kind with a parent
    ensures |d.preChecks| == (if Parent(k).Some? then 2 else 1)
    ensures SetUserID in d.preChecks <==> k != Users
    ensures UniqueNickname in d.preChecks <==> k == Users
    // at most one post-action, and it is a fan-out or the enrollment
    ensures |d.postActions| <= 1
    ensures forall st :: st in d.postActions ==> st.CreateUserEndObjects? || st.EnrollDevice?
    ensures EnrollDevice in d.postActions <==> k == UserEnds
    ensures d.postActions == [] <==> k == Users || k == PlantSharings
  {
    var c := CollectionOf(k);
    match k
    case Users =>
      Descriptor(c, [UniqueNickname], [])
    case UserEnds =>
      Descriptor(c, [SetUserID], [EnrollDevice])
    case Boxes =>
      Descriptor(c,
        [SetUserID, CheckAccessRight("devices", "DeviceID", true)],
        [CreateUserEndObjects("userend_devices", "DeviceID")])
    case Plants =>
      Descriptor(c,
        [SetUserID, CheckAccessRight("boxes", "BoxID", false)],
        [CreateUserEndObjects("userend_plants", "PlantID")])
    case Timelapses =>
      Descriptor(c,
        [SetUserID, CheckAccessRight("plants", "PlantID", false)],
        [CreateUserEndObjects("userend_timelapses", "TimelapseID")])
    case Devices =>
      Descriptor(c, [SetUserID], [CreateUserEndObjects("userend_devices", "DeviceID")])
    case Feeds =>
      Descriptor(c, [SetUserID], [CreateUserEndObjects("userend_feeds", "FeedID")])
    case FeedEntries =>
      Descriptor(c,
        [SetUserID, CheckAccessRight("feeds", "FeedID", false)],
        [CreateUserEndObjects("userend_feedentries", "FeedEntryID")])
    case FeedMedias =>
      Descriptor(c,
        [SetUserID, CheckAccessRight("feedentries", "FeedEntryID", false)],
        [CreateUserEndObjects("userend_feedmedias", "FeedMediaID")])
    case PlantSharings =>
      Descriptor(c,
        [SetUserID, CheckAccessRight("feedentries", "FeedEntryID", false)],
        [])
  }

  /** The access checks follow the ownership graph: a kind checks exactly its
      parent, through the parent's id field, and only a box requires the parent
      to exist. */
  lemma AccessChecksFollowOwnership(k: Kind)
    ensures forall st :: st in Describe(k).preChecks && st.CheckAccessRight? ==>
              Parent(k).Some?
              && st == CheckAccessRight(CollectionOf(Parent(k).value), IdField(Parent(k).value), k == Boxes)
    ensures Parent(k).Some? ==>
              CheckAccessRight(CollectionOf(Parent(k).value), IdField(Parent(k).value), k == Boxes)
              in Describe(k).preChecks
  {
    match k
    case Users =>
    case UserEnds =>
    case Boxes =>
    case Plants =>
    case Timelapses =>
    case Devices =>
    case Feeds =>
    case FeedEntries =>
    case FeedMedias =>
    case PlantSharings =>
  }

  /** Each fan-out post-action targets the mirror table of `MirrorKind(k)`
      through that kind's id field. */
  lemma FanOutTargets(k: Kind)
    ensures forall st :: st in Describe(k).postActions && st.CreateUserEndObjects? ==>
              MirrorKind(k).Some? && st.collection == MirrorTable(CollectionOf(MirrorKind(k).value))
              && st.field == IdField(MirrorKind(k).value)
    ensures MirrorKind(k).Some? ==>
              CreateUserEndObjects(MirrorTable(CollectionOf(MirrorKind(k).value)), IdField(MirrorKind(k).value))
              in Describe(k).postActions
  {
    match k
    case Users =>
    case UserEnds =>
    case Boxes => assert MirrorTable("devices") == "userend_devices";
    case Plants => assert MirrorTable("plants") == "userend_plants";
    case Timelapses => assert MirrorTable("timelapses") == "userend_timelapses";
    case Devices => assert MirrorTable("devices") == "userend_devices";
    case Feeds => assert MirrorTable("feeds") == "userend_feeds";
    case FeedEntries => assert MirrorTable("feedentries") == "userend_feedentries";
    case FeedMedias => assert MirrorTable("feedmedias") == "userend_feedmedias";
    case PlantSharings =>
  }

  /** Every kind is stored in a collection of its own. */
  lemma CollectionsDistinct(k1: Kind, k2: Kind)
    requires k1 != k2
    ensures Describe(k1).collection != Describe(k2).collection
  {
  }

  /** The configured parents form no long chain: climbing from any kind
      stops before using up one step per kind. */
  lemma ClimbShort(k: Kind)
    ensures |Climb(k, KindCount)| < KindCount
  {
    match k
    case Users =>
    case UserEnds =>
    case Boxes =>
    case Plants =>
    case Timelapses =>
    case Devices =>
    case Feeds =>
    case FeedEntries =>
    case FeedMedias =>
    case PlantSharings =>
  }

  /** A climb that stops before its step budget stopped at a root. */
  lemma {:induction false} ClimbStopsAtRoot(k: Kind, n: nat)
    requires |Climb(k, n)| < n
    ensures |Climb(k, n)| == 0 ==> Parent(k).None?
    ensures |Climb(k, n)| > 0 ==> Parent(Climb(k, n)[|Climb(k, n)| - 1]).None?
    decreases n
  {
    match Parent(k)
    case None =>
    case Some(p) =>
      ClimbStopsAtRoot(p, n - 1);
  }

  /** Once a climb has reached a root, a larger step budget changes nothing. */
  lemma {:induction false} ClimbStable(k: Kind, n: nat, m: nat)
    requires |Climb(k, n)| < n <= m
    ensures Climb(k, m) == Climb(k, n)
    decreases n
  {
    match Parent(k)
    case None =>
    case Some(p) =>
      ClimbStable(p, n - 1, m - 1);
  }

  /** The ownership chain from `k` up to a root of the graph. */
  function Ancestors(k: Kind): (chain: seq<Kind>)
    ensures |chain| == 0 <==> Parent(k).None?
    ensures |chain| > 0 ==> Parent(k) == Some(chain[0]) && Parent(chain[|chain| - 1]).None?
    ensures forall i :: 0 <= i < |chain| - 1 ==> Parent(chain[i]) == Some(chain[i + 1])
  {
    ClimbShort(k);
    ClimbStopsAtRoot(k, KindCount);
    Climb(k, KindCount)
  }

  /** Distance to a root of the ownership graph. */
  function Depth(k: Kind): nat
  {
    |Ancestors(k)|
  }

  /** Each step up the ownership graph is one step closer to a root. */
  lemma DepthStep(k: Kind)
    requires Parent(k).Some?
    ensures Ancestors(k) == [Parent(k).value] + Ancestors(Parent(k).value)
    ensures Depth(k) == 1 + Depth(Parent(k).value)
  {
    var p := Parent(k).value;
    ClimbShort(k);
    assert Climb(k, KindCount) == [p] + Climb(p, KindCount - 1);
    ClimbStable(p, KindCount - 1, KindCount);
  }

  /** Along the chain the depth drops by exactly one per step. */
  lemma {:induction false} AncestorsDepths(k: Kind)
    ensures forall i :: 0 <= i < |Ancestors(k)| ==> Depth(Ancestors(k)[i]) == Depth(k) - 1 - i
    decreases Depth(k)
  {
    if Parent(k).Some? {
      var p := Parent(k).value;
      DepthStep(k);
      AncestorsDepths(p);
    }
  }

  /** The ownership graph has no cycle: neither a kind nor any of its
      ancestors is among its own ancestors. */
  lemma OwnershipAcyclic(k: Kind)
    ensures k !in Ancestors(k)
    ensures forall a :: a in Ancestors(k) ==> a !in Ancestors(a)
  {
    AncestorsDepths(k);
    forall a | a in Ancestors(k)
      ensures a !in Ancestors(a)
    {
      AncestorsDepths(a);
    }
  }
}
