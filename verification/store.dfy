/** An abstract row store standing in for the SQL session the handlers use.

A session maps each collection name to the sequence of its rows. Storage
failures are modelled per collection: a collection listed in `faults` fails
every statement issued against it with the recorded error text. Every
successful write, and every response header a handler sets, is appended to
`effects`, so the order in which a handler acts is observable. */
module Store {

  /** Identifiers are UUIDs; the model works with their canonical string form,
      so `uuid.String()` is the identity here. */
  type Id = string

  /** The outcome of a statement against the store or of an external
      collaborator (hashing, signing). */
  datatype Result<T> = Ok(value: T) | Err(message: string)

  /** An ownership-bearing resource row (boxes, plants, devices, ...): only its
      identifier and its owner matter to the core. */
  datatype Object = Object(id: Id, userID: Id)

  /** A row of the `users` collection. */
  datatype User = User(id: Id, nickname: string, password: string)

  /** A mirror row of a `userend_<collection>` table: the device `userEndID`
      still has to receive the object `objectID`. */
  datatype UserEndObject = UserEndObject(userEndID: Id, objectID: Id, dirty: bool)

  datatype Row =
    | Resource(obj: Object)
    | Account(user: User)
    | Mirror(link: UserEndObject)

  /** An observable action of a handler, in the order it happened. */
  datatype Effect =
    | Wrote(collection: string, row: Row)
    | SetHeader(name: string, value: string)

  datatype Session = Session(tables: map<string, seq<Row>>, faults: map<string, string>, effects: seq<Effect>)

  /** The rows of collection `c`; a collection never written to is empty. */
  function Rows(s: Session, c: string): seq<Row>
  {
    if c in s.tables then s.tables[c] else []
  }

  /** The rows that the effects `e` append to collection `c`, in order. */
  function WrittenTo(e: seq<Effect>, c: string): seq<Row>
  {
    if |e| == 0 then []
    else (if e[0].Wrote? && e[0].collection == c then [e[0].row] else []) + WrittenTo(e[1..], c)
  }

  /** `s'` is `s` after the effects `e`: the same faults, `e` appended to the
      trace, and every collection grown by exactly the rows `e` writes to it. */
  ghost predicate Extends(s: Session, s': Session, e: seq<Effect>)
  {
    && s'.faults == s.faults
    && s'.effects == s.effects + e
    && forall c {:trigger WrittenTo(e, c)} :: Rows(s', c) == Rows(s, c) + WrittenTo(e, c)
  }

  lemma {:induction false} WrittenToAppend(e1: seq<Effect>, e2: seq<Effect>, c: string)
    ensures WrittenTo(e1 + e2, c) == WrittenTo(e1, c) + WrittenTo(e2, c)
    decreases |e1|
  {
    if |e1| == 0 {
      assert e1 + e2 == e2;
    } else {
      assert (e1 + e2)[1..] == e1[1..] + e2;
      WrittenToAppend(e1[1..], e2, c);
    }
  }

  lemma ExtendsNothing(s: Session)
    ensures Extends(s, s, [])
  {
    assert s.effects + [] == s.effects;
  }

  /** Effects compose: doing `e1` and then `e2` is doing `e1 + e2`. */
  lemma ExtendsTrans(s1: Session, s2: Session, s3: Session, e1: seq<Effect>, e2: seq<Effect>)
    requires Extends(s1, s2, e1) && Extends(s2, s3, e2)
    ensures Extends(s1, s3, e1 + e2)
  {
    forall c
      ensures Rows(s3, c) == Rows(s1, c) + WrittenTo(e1 + e2, c)
    {
      WrittenToAppend(e1, e2, c);
    }
  }

  /** Inserts one row into collection `c`; fails, changing nothing, when the
      collection is faulty. */
  function Insert(s: Session, c: string, row: Row): (r: Result<Session>)
    ensures r.Err? <==> c in s.faults
    ensures r.Err? ==> r.message == s.faults[c]
    ensures r.Ok? ==> Extends(s, r.value, [Wrote(c, row)])
  {
    if c in s.faults then Err(s.faults[c])
    else
      var s' := Session(s.tables[c := Rows(s, c) + [row]], s.faults, s.effects + [Wrote(c, row)]);
      assert forall t :: WrittenTo([Wrote(c, row)], t) == (if t == c then [row] else []);
      Ok(s')
  }

  /** Sets a response header; the store itself is untouched. */
  function SetResponseHeader(s: Session, name: string, value: string): (s': Session)
    ensures Extends(s, s', [SetHeader(name, value)])
  {
    assert forall t :: WrittenTo([SetHeader(name, value)], t) == [];
    Session(s.tables, s.faults, s.effects + [SetHeader(name, value)])
  }

  /** The resources among `rows` that belong to user `uid`, as the query
      `WHERE userid = uid` returns them. */
  function Owned(rows: seq<Row>, uid: Id): (r: seq<Object>)
    ensures |r| <= |rows|
    ensures forall o :: multiset(r)[o] == (if o.userID == uid then multiset(rows)[Resource(o)] else 0)
    ensures forall o :: o in r <==> Resource(o) in rows && o.userID == uid
  {
    if |rows| == 0 then []
    else
      assert rows == [rows[0]] + rows[1..];
      var rest := Owned(rows[1..], uid);
      if rows[0].Resource? && rows[0].obj.userID == uid then [rows[0].obj] + rest else rest
  }

  /** The number of accounts among `rows` whose nickname is `nickname`. */
  function NicknameCount(rows: seq<Row>, nickname: string): (n: nat)
    ensures n <= |rows|
    ensures n > 0 <==> exists i :: 0 <= i < |rows| && rows[i].Account? && rows[i].user.nickname == nickname
  {
    if |rows| == 0 then 0
    else
      var rest := NicknameCount(rows[1..], nickname);
      assert forall i :: 0 < i < |rows| ==> rows[i] == rows[1..][i - 1];
      if rows[0].Account? && rows[0].user.nickname == nickname then rest + 1 else rest
  }

  /** The positions of `rows` holding an account named `nickname`. */
  ghost function NamedAt(rows: seq<Row>, nickname: string): set<int>
  {
    set i | 0 <= i < |rows| && rows[i].Account? && rows[i].user.nickname == nickname
  }

  /** Shifting every element by one keeps the size of a set. */
  lemma {:induction false} ShiftedSize(xs: set<int>)
    ensures |set i | i in xs :: i + 1| == |xs|
    decreases |xs|
  {
    if |xs| > 0 {
      var x :| x in xs by {
        // a set without elements would have size 0
        if forall y :: y !in xs {
          assert false;
        }
      }
      ShiftedSize(xs - {x});
      var whole, rest := set i | i in xs :: i + 1, set i | i in xs - {x} :: i + 1;
      assert whole == rest + {x + 1} by {
        forall j | j in whole ensures j in rest + {x + 1} {
          var i :| i in xs && j == i + 1;
          if i != x {
            assert i in xs - {x};
          }
        }
      }
      assert x + 1 !in rest;
    }
  }

  /** The nickname count is exactly the number of accounts carrying it. */
  lemma {:induction false} NicknameCountExact(rows: seq<Row>, nickname: string)
    ensures NicknameCount(rows, nickname) == |NamedAt(rows, nickname)|
    decreases |rows|
  {
    if |rows| > 0 {
      var tail := NamedAt(rows[1..], nickname);
      NicknameCountExact(rows[1..], nickname);
      ShiftedSize(tail);
      var shifted := set i | i in tail :: i + 1;
      var head: set<int> := if rows[0].Account? && rows[0].user.nickname == nickname then {0} else {};
      assert NamedAt(rows, nickname) == head + shifted by {
        forall i | i in NamedAt(rows, nickname) && i > 0
          ensures i in shifted
        {
          assert i - 1 in tail;
        }
      }
      assert head !! shifted;
    }
  }

  /** `SELECT count(*) FROM c WHERE nickname = nickname`. */
  function CountNickname(s: Session, c: string, nickname: string): (r: Result<nat>)
    ensures r.Err? <==> c in s.faults
    ensures r.Err? ==> r.message == s.faults[c]
    ensures r.Ok? ==> r.value <= |Rows(s, c)|
    ensures r.Ok? ==> (r.value > 0 <==> exists i :: 0 <= i < |Rows(s, c)| && Rows(s, c)[i].Account?
                                                   && Rows(s, c)[i].user.nickname == nickname)
  {
    if c in s.faults then Err(s.faults[c]) else Ok(NicknameCount(Rows(s, c), nickname))
  }

  /** `SELECT * FROM c WHERE userid = uid`. */
  function SelectOwned(s: Session, c: string, uid: Id): (r: Result<seq<Object>>)
    ensures r.Err? <==> c in s.faults
    ensures r.Err? ==> r.message == s.faults[c]
    ensures r.Ok? ==> forall o :: o in r.value <==> Resource(o) in Rows(s, c) && o.userID == uid
    ensures r.Ok? ==> forall o :: multiset(r.value)[o] == (if o.userID == uid then multiset(Rows(s, c))[Resource(o)] else 0)
  {
    if c in s.faults then Err(s.faults[c]) else Ok(Owned(Rows(s, c), uid))
  }
}
