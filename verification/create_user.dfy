/** The pre-check that runs before a new user row is inserted: nicknames must
    be unused, and the clear-text password is replaced by its hash. */
module CreateUser {
  import opened Store
  import opened Http
  import Registry

  /** The collection user accounts are stored in. */
  const UsersCollection := Registry.CollectionOf(Registry.Users)
  const AlreadyExists := "User already exists"
  /** The bcrypt work factor the password is hashed with. */
  const BcryptCost: nat := 8

  /** The password hashing collaborator: (password, cost) to digest, or an error. */
  type Hasher = (string, nat) -> Result<string>

  /** Some account in the store already carries `nickname` (compared as exact character sequences). */
  ghost predicate NicknameTaken(s: Session, nickname: string)
  {
    exists i :: 0 <= i < |Rows(s, UsersCollection)| && Rows(s, UsersCollection)[i].Account?
      && Rows(s, UsersCollection)[i].user.nickname == nickname
  }

  /** Checks `u` before it is inserted; on `Next` the continuation receives the
      user whose password has been replaced by its hash. The check itself never
      writes to the store. */
  function CheckNewUser(s: Session, u: User, hash: Hasher): (o: Handled<User>)
    ensures o.session == s
    ensures o.Next? <==> UsersCollection !in s.faults && !NicknameTaken(s, u.nickname)
                         && hash(u.password, BcryptCost).Ok?
    ensures o.Next? ==> o.value == u.(password := hash(u.password, BcryptCost).value)
    ensures UsersCollection in s.faults ==>
              o == Halt(s, StatusInternalServerError, s.faults[UsersCollection])
    ensures UsersCollection !in s.faults && NicknameTaken(s, u.nickname) ==>
              o == Halt(s, StatusBadRequest, AlreadyExists)
    ensures UsersCollection !in s.faults && !NicknameTaken(s, u.nickname) && hash(u.password, BcryptCost).Err? ==>
              o == Halt(s, StatusInternalServerError, hash(u.password, BcryptCost).message)
  {
    match CountNickname(s, UsersCollection, u.nickname)
    case Err(e) => Halt(s, StatusInternalServerError, e)
    case Ok(n) =>
      if n > 0 then Halt(s, StatusBadRequest, AlreadyExists)
      else
        match hash(u.password, BcryptCost)
        case Err(e) => Halt(s, StatusInternalServerError, e)
        case Ok(digest) => Next(s, u.(password := digest))
  }

  /** A duplicate nickname is refused whatever the hasher does, and the request
      never reaches the insert. */
  lemma DuplicateNicknameRejected(s: Session, u: User, hash: Hasher)
    requires UsersCollection !in s.faults
    requires exists v :: Account(v) in Rows(s, UsersCollection) && v.nickname == u.nickname
    ensures CheckNewUser(s, u, hash) == Halt(s, StatusBadRequest, AlreadyExists)
  {
    var v :| Account(v) in Rows(s, UsersCollection) && v.nickname == u.nickname;
    var i :| 0 <= i < |Rows(s, UsersCollection)| && Rows(s, UsersCollection)[i] == Account(v);
    assert NicknameTaken(s, u.nickname);
  }

  /** A fresh nickname with a working hasher always reaches the insert, with
      only the password changed. */
  lemma FreshNicknameAccepted(s: Session, u: User, hash: Hasher)
    requires UsersCollection !in s.faults
    requires forall v :: Account(v) in Rows(s, UsersCollection) ==> v.nickname != u.nickname
    requires hash(u.password, BcryptCost).Ok?
    ensures CheckNewUser(s, u, hash).Next?
    ensures CheckNewUser(s, u, hash).value.nickname == u.nickname
    ensures CheckNewUser(s, u, hash).value.password == hash(u.password, BcryptCost).value
  {
  }
}
