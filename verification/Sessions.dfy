// One live session per user: concurrent sign-ins, each a database transaction
// that takes an advisory lock, revokes what is live and inserts a session.
module Sessions {

  datatype Session = Session(user: nat, revoked: bool)

  // How far a sign-in has got. Its writes are its own until it commits:
  // `doomed` are the rows its UPDATE found live.
  datatype Login =
    | Locked(user: nat)
    | Revoked(user: nat, doomed: set<nat>)
    | Inserted(user: nat, doomed: set<nat>)

  datatype Store = Store(sessions: seq<Session>, locks: map<int, nat>, logins: map<nat, Login>)

  datatype Step =
    | TakeLock(login: nat, user: nat)
    | RevokeLive(login: nat)
    | Insert(login: nat)
    | Commit(login: nat)
    | Abort(login: nat)
    | RevokeOne(session: nat)
    | RevokeAll(user: nat)

  function LiveOf(sessions: seq<Session>, user: nat): set<nat> {
    set i: nat | i < |sessions| && sessions[i].user == user && !sessions[i].revoked
  }

  function Revoking(sessions: seq<Session>, ids: set<nat>): seq<Session> {
    seq(|sessions|, i requires 0 <= i < |sessions| => if i in ids then sessions[i].(revoked := true) else sessions[i])
  }

  function WithoutLogin(m: map<nat, Login>, k: nat): map<nat, Login> { map x | x in m && x != k :: m[x] }
  function WithoutLock(m: map<int, nat>, k: nat): map<int, nat> { map x | x in m && m[x] != k :: m[x] }

  // `key` is the database's hash of the user id; two users may share a lock.
  function Apply(s: Store, step: Step, key: nat -> int): Store {
    match step
    case TakeLock(l, user) =>
      if l in s.logins || key(user) in s.locks then s
      else s.(locks := s.locks[key(user) := l], logins := s.logins[l := Locked(user)])
    case RevokeLive(l) =>
      if l in s.logins && s.logins[l].Locked? then
        s.(logins := s.logins[l := Revoked(s.logins[l].user, LiveOf(s.sessions, s.logins[l].user))])
      else s
    case Insert(l) =>
      if l in s.logins && s.logins[l].Revoked? then
        s.(logins := s.logins[l := Inserted(s.logins[l].user, s.logins[l].doomed)])
      else s
    case Commit(l) =>
      if l in s.logins && s.logins[l].Inserted? then
        Store(Revoking(s.sessions, s.logins[l].doomed) + [Session(s.logins[l].user, false)],
              WithoutLock(s.locks, l), WithoutLogin(s.logins, l))
      else s
    case Abort(l) => s.(locks := WithoutLock(s.locks, l), logins := WithoutLogin(s.logins, l))
    case RevokeOne(i) => s.(sessions := Revoking(s.sessions, {i}))
    case RevokeAll(user) => s.(sessions := Revoking(s.sessions, LiveOf(s.sessions, user)))
  }

  function Exec(run: seq<Step>, key: nat -> int): Store {
    if |run| == 0 then Store([], map[], map[])
    else Apply(Exec(run[..|run| - 1], key), run[|run| - 1], key)
  }

  predicate AtMostOneLive(sessions: seq<Session>, user: nat) {
    forall i: nat, k: nat | i < k < |sessions| && sessions[i].user == user && sessions[k].user == user ::
      sessions[i].revoked || sessions[k].revoked
  }

  // A sign-in past its first statement holds its user's lock, and no session of
  // that user has come to life behind its back.
  predicate LoginOk(s: Store, l: nat, key: nat -> int)
    requires l in s.logins
  {
    var login := s.logins[l];
    && key(login.user) in s.locks && s.locks[key(login.user)] == l
    && (!login.Locked? ==> LiveOf(s.sessions, login.user) <= login.doomed)
  }

  ghost predicate Inv(s: Store, key: nat -> int) {
    && (forall user: nat :: AtMostOneLive(s.sessions, user))
    && (forall l | l in s.logins :: LoginOk(s, l, key))
  }

  lemma RevokingOnlyRevokes(sessions: seq<Session>, ids: set<nat>, user: nat)
    ensures LiveOf(Revoking(sessions, ids), user) == LiveOf(sessions, user) - ids
    ensures AtMostOneLive(sessions, user) ==> AtMostOneLive(Revoking(sessions, ids), user)
  {
  }

  lemma CommitKeepsInv(s: Store, l: nat, key: nat -> int)
    requires Inv(s, key) && l in s.logins && s.logins[l].Inserted?
    ensures Inv(Apply(s, Commit(l), key), key)
  {
    var login := s.logins[l];
    var s' := Apply(s, Commit(l), key);
    var revoked := Revoking(s.sessions, login.doomed);
    assert LoginOk(s, l, key);
    forall user: nat ensures AtMostOneLive(s'.sessions, user) {
      RevokingOnlyRevokes(s.sessions, login.doomed, user);
      forall i: nat | i < |revoked| && revoked[i].user == login.user ensures revoked[i].revoked {
        assert !revoked[i].revoked ==> i in LiveOf(s.sessions, login.user);
      }
    }
    forall m | m in s'.logins ensures LoginOk(s', m, key) {
      assert LoginOk(s, m, key);
      assert s.logins[m].user != login.user;
      RevokingOnlyRevokes(s.sessions, login.doomed, s.logins[m].user);
      assert LiveOf(s'.sessions, s.logins[m].user) == LiveOf(revoked, s.logins[m].user);
    }
  }

  lemma RevocationKeepsInv(s: Store, ids: set<nat>, key: nat -> int)
    requires Inv(s, key)
    ensures Inv(s.(sessions := Revoking(s.sessions, ids)), key)
  {
    var s' := s.(sessions := Revoking(s.sessions, ids));
    forall user: nat ensures AtMostOneLive(s'.sessions, user) {
      RevokingOnlyRevokes(s.sessions, ids, user);
    }
    forall l | l in s'.logins ensures LoginOk(s', l, key) {
      assert LoginOk(s, l, key);
      RevokingOnlyRevokes(s.sessions, ids, s.logins[l].user);
    }
  }

  lemma StepKeepsInv(s: Store, step: Step, key: nat -> int)
    requires Inv(s, key)
    ensures Inv(Apply(s, step, key), key)
  {
    match step
    case Commit(l) => if l in s.logins && s.logins[l].Inserted? { CommitKeepsInv(s, l, key); }
    case RevokeOne(i) => RevocationKeepsInv(s, {i}, key);
    case RevokeAll(user) => RevocationKeepsInv(s, LiveOf(s.sessions, user), key);
    case _ =>
      var s' := Apply(s, step, key);
      forall l | l in s'.logins ensures LoginOk(s', l, key) {
        if l in s.logins { assert LoginOk(s, l, key); }
      }
  }

  // In every committed state of every interleaving, locks held or not, a user
  // has at most one unrevoked session; a sign-in that just committed left its
  // user exactly the new one.
  lemma {:induction false} OneLiveSessionPerUser(run: seq<Step>, key: nat -> int)
    ensures forall user: nat :: AtMostOneLive(Exec(run, key).sessions, user)
    ensures Inv(Exec(run, key), key)
  {
    if |run| == 0 {
    } else {
      OneLiveSessionPerUser(run[..|run| - 1], key);
      StepKeepsInv(Exec(run[..|run| - 1], key), run[|run| - 1], key);
    }
  }

  // What a commit leaves: every row its UPDATE found, revoked, and one new one.
  lemma CommitLeavesOne(sessions: seq<Session>, user: nat, doomed: set<nat>)
    requires LiveOf(sessions, user) <= doomed
    ensures LiveOf(Revoking(sessions, doomed) + [Session(user, false)], user) == {|sessions|}
  {
    RevokingOnlyRevokes(sessions, doomed, user);
    var revoked := Revoking(sessions, doomed);
    assert LiveOf(revoked, user) == {};
    forall i: nat | i < |revoked| && revoked[i].user == user ensures revoked[i].revoked {
      assert i !in LiveOf(revoked, user);
    }
  }

  lemma InsertedLoginCoversTheLive(s: Store, l: nat, key: nat -> int)
    requires Inv(s, key) && l in s.logins && s.logins[l].Inserted?
    ensures LiveOf(s.sessions, s.logins[l].user) <= s.logins[l].doomed
  {
    assert LoginOk(s, l, key);
  }

  lemma CommittedLoginIsTheOnlyOne(run: seq<Step>, key: nat -> int, l: nat)
    requires l in Exec(run, key).logins && Exec(run, key).logins[l].Inserted?
    ensures var s := Exec(run, key);
            LiveOf(Exec(run + [Commit(l)], key).sessions, s.logins[l].user) == {|s.sessions|}
  {
    var s := Exec(run, key);
    OneLiveSessionPerUser(run, key);
    assert (run + [Commit(l)])[..|run|] == run;
    InsertedLoginCoversTheLive(s, l, key);
    CommitLeavesOne(s.sessions, s.logins[l].user, s.logins[l].doomed);
  }

  // ---- The service -----------------------------------------------------------

  class SessionsService {
    var sessions: seq<Session>

    constructor ()
      ensures sessions == []
    {
      sessions := [];
    }

    // Under the user's lock: revoke every live session, insert the new one.
    method CreateExclusive(user: nat) returns (id: nat)
      modifies this
      ensures id == |old(sessions)|
      ensures sessions == Revoking(old(sessions), LiveOf(old(sessions), user)) + [Session(user, false)]
      ensures LiveOf(sessions, user) == {id}
      ensures forall other: nat | other != user :: LiveOf(sessions, other) == LiveOf(old(sessions), other)
    {
      RevokeAllForUser(user);
      id := |sessions|;
      sessions := sessions + [Session(user, false)];
    }

    method RevokeAllForUser(user: nat)
      modifies this
      ensures sessions == Revoking(old(sessions), LiveOf(old(sessions), user))
      ensures LiveOf(sessions, user) == {}
    {
      sessions := seq(|sessions|, i requires 0 <= i < |sessions| reads this =>
        if sessions[i].user == user && !sessions[i].revoked then sessions[i].(revoked := true) else sessions[i]);
    }
  }
}
