// Refresh-token rotation: what a run of concurrent refreshes, reuse responses
// and logouts can make of a session's tokens.
module Tokens {
  import opened Prelude

  // Rows are only inserted; a token's id is its position.
  datatype Token = Token(session: nat, user: nat, revoked: bool, replacedBy: Option<nat>, expiresAt: int)

  datatype Scope = OfSession(session: nat) | OfUser(user: nat) | OfUserExcept(user: nat, kept: nat)

  // What a request remembers: the live token it is about to rotate, what it is
  // about to revoke, or the rows its UPDATE saw.
  datatype Pc = Rotating(token: nat) | Revoking(scope: Scope) | Sweeping(scope: Scope, seen: set<nat>)

  datatype Auth = Auth(tokens: seq<Token>, issued: set<nat>, threads: map<nat, Pc>)

  datatype Step =
    | Issue(user: nat, session: nat, expiresAt: int)
    | PreCheck(thread: nat, token: nat, now: int)
    | Rotate(thread: nat, expiresAt: int)
    | Revoke(thread: nat, scope: Scope)
    | SweepSees(thread: nat)
    | SweepWrites(thread: nat)
    | Dies(thread: nat)

  // ---- The service's statements ----------------------------------------------

  predicate InScope(t: Token, scope: Scope) {
    match scope
    case OfSession(s) => t.session == s
    case OfUser(u) => t.user == u
    case OfUserExcept(u, kept) => t.user == u && t.session != kept
  }

  // The rows a revoking UPDATE finds when it starts.
  function LiveIn(tokens: seq<Token>, scope: Scope): set<nat> {
    set i: nat | i < |tokens| && InScope(tokens[i], scope) && !tokens[i].revoked
  }

  // It revokes those of them that are still live when it gets their locks.
  function Swept(tokens: seq<Token>, seen: set<nat>): seq<Token> {
    seq(|tokens|, i requires 0 <= i < |tokens| => if i in seen then tokens[i].(revoked := true) else tokens[i])
  }

  function Fresh(user: nat, session: nat, expiresAt: int): Token {
    Token(session, user, false, None, expiresAt)
  }

  // The successor is inserted, the token revoked and pointed at it.
  function Rotated(tokens: seq<Token>, i: nat, expiresAt: int): seq<Token>
    requires i < |tokens|
  {
    tokens[i := tokens[i].(revoked := true, replacedBy := Some(|tokens|))]
    + [Fresh(tokens[i].user, tokens[i].session, expiresAt)]
  }

  function Drop(m: map<nat, Pc>, k: nat): map<nat, Pc> { map x | x in m && x != k :: m[x] }

  function Apply(a: Auth, s: Step): Auth {
    match s
    // Sign-in issues the first token of the session it has just created.
    case Issue(user, session, expiresAt) =>
      if session in a.issued then a
      else a.(tokens := a.tokens + [Fresh(user, session, expiresAt)], issued := a.issued + {session})
    // The unlocked look at the presented token.
    case PreCheck(t, i, now) =>
      if t in a.threads || i >= |a.tokens| then a
      else if a.tokens[i].revoked then a.(threads := a.threads[t := Revoking(OfSession(a.tokens[i].session))])
      else if a.tokens[i].expiresAt < now then a
      else a.(threads := a.threads[t := Rotating(i)])
    // The locked look, and the rotation.
    case Rotate(t, expiresAt) =>
      if t in a.threads && a.threads[t].Rotating? && a.threads[t].token < |a.tokens| then
        var i := a.threads[t].token;
        if a.tokens[i].revoked then a.(threads := Drop(a.threads, t))
        else a.(tokens := Rotated(a.tokens, i, expiresAt), threads := Drop(a.threads, t))
      else a
    case Revoke(t, scope) => if t in a.threads then a else a.(threads := a.threads[t := Revoking(scope)])
    case SweepSees(t) =>
      if t in a.threads && a.threads[t].Revoking? then
        a.(threads := a.threads[t := Sweeping(a.threads[t].scope, LiveIn(a.tokens, a.threads[t].scope))])
      else a
    case SweepWrites(t) =>
      if t in a.threads && a.threads[t].Sweeping? then
        a.(tokens := Swept(a.tokens, a.threads[t].seen), threads := Drop(a.threads, t))
      else a
    case Dies(t) => a.(threads := Drop(a.threads, t))
  }

  function Exec(run: seq<Step>): Auth {
    if |run| == 0 then Auth([], {}, map[])
    else Apply(Exec(run[..|run| - 1]), run[|run| - 1])
  }

  // ---- The chain -------------------------------------------------------------

  // The session's next token after position `i`, in the order of insertion.
  function NextOf(tokens: seq<Token>, session: nat, i: nat): Option<nat>
    decreases |tokens| - i
  {
    if i >= |tokens| then None
    else if tokens[i].session == session then Some(i)
    else NextOf(tokens, session, i + 1)
  }

  // Every token points at the very next one of its session and is revoked if
  // there is one; only the session's newest points nowhere and may be live.
  predicate LinkOk(tokens: seq<Token>, i: nat)
    requires i < |tokens|
  {
    && tokens[i].replacedBy == NextOf(tokens, tokens[i].session, i + 1)
    && (tokens[i].replacedBy.Some? ==> tokens[i].revoked)
  }

  predicate Chained(tokens: seq<Token>) {
    forall i: nat | i < |tokens| :: LinkOk(tokens, i)
  }

  predicate PcOk(a: Auth, pc: Pc) {
    && (pc.Rotating? ==> pc.token < |a.tokens|)
    && (pc.Sweeping? ==> forall i | i in pc.seen :: i < |a.tokens|)
  }

  // Every token of a session is the same user's.
  predicate OneUserEach(tokens: seq<Token>) {
    forall i, k | 0 <= i < k < |tokens| && tokens[i].session == tokens[k].session :: tokens[i].user == tokens[k].user
  }

  predicate Inv(a: Auth) {
    && Chained(a.tokens)
    && OneUserEach(a.tokens)
    && (forall i: nat | i < |a.tokens| :: a.tokens[i].session in a.issued)
    && (forall t | t in a.threads :: PcOk(a, a.threads[t]))
  }

  lemma {:induction false} NextIsFirst(tokens: seq<Token>, session: nat, i: nat)
    ensures var n := NextOf(tokens, session, i);
            && (n.Some? ==> i <= n.value < |tokens| && tokens[n.value].session == session
                            && forall k: nat | i <= k < n.value :: tokens[k].session != session)
            && (n.None? ==> forall k: nat | i <= k < |tokens| :: tokens[k].session != session)
    decreases |tokens| - i
  {
    if i < |tokens| && tokens[i].session != session {
      NextIsFirst(tokens, session, i + 1);
    }
  }

  // Adding a token gives a successor to those of its session that had none.
  lemma {:induction false} NextAfterAppend(tokens: seq<Token>, tokens': seq<Token>, session: nat, i: nat)
    requires |tokens'| == |tokens| + 1 && i <= |tokens|
    requires forall k: nat | k < |tokens| :: tokens'[k].session == tokens[k].session
    ensures NextOf(tokens', session, i) ==
            if NextOf(tokens, session, i).Some? then NextOf(tokens, session, i)
            else if tokens'[|tokens|].session == session then Some(|tokens|) else None
    decreases |tokens| - i
  {
    if i < |tokens| {
      NextAfterAppend(tokens, tokens', session, i + 1);
    }
  }

  lemma {:induction false} NextKeepsSessions(tokens: seq<Token>, tokens': seq<Token>, session: nat, i: nat)
    requires |tokens'| == |tokens| && forall k: nat | k < |tokens| :: tokens'[k].session == tokens[k].session
    ensures NextOf(tokens', session, i) == NextOf(tokens, session, i)
    decreases |tokens| - i
  {
    if i < |tokens| {
      NextKeepsSessions(tokens, tokens', session, i + 1);
    }
  }

  // A live token is its session's newest.
  lemma LiveIsNewest(tokens: seq<Token>, i: nat, k: nat)
    requires Chained(tokens) && i < |tokens| && k < |tokens|
    requires !tokens[i].revoked && tokens[k].session == tokens[i].session
    ensures k <= i
  {
    assert LinkOk(tokens, i);
    NextIsFirst(tokens, tokens[i].session, i + 1);
  }

  lemma RotateKeepsChain(tokens: seq<Token>, i: nat, expiresAt: int)
    requires Chained(tokens) && i < |tokens| && !tokens[i].revoked
    ensures Chained(Rotated(tokens, i, expiresAt))
  {
    var tokens' := Rotated(tokens, i, expiresAt);
    forall k: nat | k < |tokens'| ensures LinkOk(tokens', k) {
      if k < |tokens| {
        assert LinkOk(tokens, k) && LinkOk(tokens, i);
        NextAfterAppend(tokens, tokens', tokens[k].session, k + 1);
        NextIsFirst(tokens, tokens[k].session, k + 1);
        if tokens[k].session == tokens[i].session {
          LiveIsNewest(tokens, i, k);
        }
      }
    }
  }

  lemma IssueKeepsChain(tokens: seq<Token>, t: Token)
    requires Chained(tokens) && t.replacedBy.None?
    requires forall k: nat | k < |tokens| :: tokens[k].session != t.session
    ensures Chained(tokens + [t])
  {
    forall k: nat | k < |tokens + [t]| ensures LinkOk(tokens + [t], k) {
      if k < |tokens| {
        assert LinkOk(tokens, k);
        NextAfterAppend(tokens, tokens + [t], tokens[k].session, k + 1);
      }
    }
  }

  lemma RevokingKeepsLink(tokens: seq<Token>, tokens': seq<Token>, k: nat)
    requires |tokens'| == |tokens| && k < |tokens| && LinkOk(tokens, k)
    requires forall i: nat | i < |tokens| ::
               tokens'[i] == tokens[i] || tokens'[i] == tokens[i].(revoked := true)
    ensures LinkOk(tokens', k)
  {
    NextKeepsSessions(tokens, tokens', tokens[k].session, k + 1);
  }

  lemma SweepKeepsChain(tokens: seq<Token>, seen: set<nat>)
    requires Chained(tokens)
    ensures Chained(Swept(tokens, seen))
  {
    var tokens' := Swept(tokens, seen);
    forall k: nat | k < |tokens'| ensures LinkOk(tokens', k) {
      assert LinkOk(tokens, k);
      RevokingKeepsLink(tokens, tokens', k);
    }
  }

  lemma IssueKeepsUsers(tokens: seq<Token>, t: Token)
    requires OneUserEach(tokens) && forall k: nat | k < |tokens| :: tokens[k].session != t.session
    ensures OneUserEach(tokens + [t])
  {
  }

  lemma RotateKeepsUsers(tokens: seq<Token>, i: nat, expiresAt: int)
    requires OneUserEach(tokens) && i < |tokens|
    ensures OneUserEach(Rotated(tokens, i, expiresAt))
  {
    assert forall k: nat | k < |tokens| && tokens[k].session == tokens[i].session :: tokens[k].user == tokens[i].user;
  }

  lemma SweepKeepsUsers(tokens: seq<Token>, seen: set<nat>)
    requires OneUserEach(tokens)
    ensures OneUserEach(Swept(tokens, seen))
  {
  }

  lemma StepKeepsInv(a: Auth, s: Step)
    requires Inv(a)
    ensures Inv(Apply(a, s))
  {
    if s.Issue? && s.session !in a.issued {
      IssueKeepsChain(a.tokens, Fresh(s.user, s.session, s.expiresAt));
      IssueKeepsUsers(a.tokens, Fresh(s.user, s.session, s.expiresAt));
    } else if s.Rotate? && s.thread in a.threads && a.threads[s.thread].Rotating? {
      var i := a.threads[s.thread].token;
      if i < |a.tokens| && !a.tokens[i].revoked {
        RotateKeepsChain(a.tokens, i, s.expiresAt);
        RotateKeepsUsers(a.tokens, i, s.expiresAt);
      }
    } else if s.SweepWrites? && s.thread in a.threads && a.threads[s.thread].Sweeping? {
      SweepKeepsChain(a.tokens, a.threads[s.thread].seen);
      SweepKeepsUsers(a.tokens, a.threads[s.thread].seen);
    }
  }

  lemma {:induction false} RunKeepsInv(run: seq<Step>)
    ensures Inv(Exec(run))
  {
    if |run| == 0 {
    } else {
      RunKeepsInv(run[..|run| - 1]);
      StepKeepsInv(Exec(run[..|run| - 1]), run[|run| - 1]);
    }
  }

  // ---- What that means -------------------------------------------------------

  // In every state: a session has at most one live token, its newest; a token
  // with a successor is revoked and its successor is the next token of the
  // session; and no token succeeds two.
  lemma OneLinearChain(run: seq<Step>, i: nat, k: nat)
    requires var ts := Exec(run).tokens; i < k < |ts| && ts[i].session == ts[k].session
    ensures var ts := Exec(run).tokens;
            && ts[i].revoked
            && ts[i].replacedBy.Some? && i < ts[i].replacedBy.value <= k
            && ts[ts[i].replacedBy.value].session == ts[i].session
            && (forall m: nat | i < m < ts[i].replacedBy.value :: ts[m].session != ts[i].session)
            && ts[i].replacedBy != ts[k].replacedBy
  {
    RunKeepsInv(run);
    ChainIsLinear(Exec(run).tokens, i, k);
  }

  lemma ChainIsLinear(ts: seq<Token>, i: nat, k: nat)
    requires Chained(ts) && i < k < |ts| && ts[i].session == ts[k].session
    ensures ts[i].revoked && ts[i].replacedBy.Some? && i < ts[i].replacedBy.value <= k
    ensures ts[ts[i].replacedBy.value].session == ts[i].session
    ensures forall m: nat | i < m < ts[i].replacedBy.value :: ts[m].session != ts[i].session
    ensures ts[i].replacedBy != ts[k].replacedBy
  {
    assert LinkOk(ts, i) && LinkOk(ts, k);
    NextIsFirst(ts, ts[i].session, i + 1);
    NextIsFirst(ts, ts[k].session, k + 1);
  }

  predicate Empty(tokens: seq<Token>, session: nat) {
    forall i: nat | i < |tokens| && tokens[i].session == session :: tokens[i].revoked
  }

  // A successor, once given, is never changed, and a revoked token stays so.
  lemma StepsOnlyRevoke(a: Auth, s: Step, i: nat)
    requires Inv(a) && i < |a.tokens|
    ensures i < |Apply(a, s).tokens|
    ensures var u := Apply(a, s).tokens[i];
            && u.session == a.tokens[i].session && u.user == a.tokens[i].user && u.expiresAt == a.tokens[i].expiresAt
            && (a.tokens[i].revoked ==> u.revoked)
            && (a.tokens[i].replacedBy.Some? ==> u.replacedBy == a.tokens[i].replacedBy)
  {
    assert LinkOk(a.tokens, i);
  }

  lemma StepKeepsEmpty(a: Auth, s: Step, session: nat)
    requires Inv(a) && session in a.issued && Empty(a.tokens, session)
    ensures session in Apply(a, s).issued && Empty(Apply(a, s).tokens, session)
  {
    forall i: nat | i < |Apply(a, s).tokens| && Apply(a, s).tokens[i].session == session
      ensures Apply(a, s).tokens[i].revoked
    {
      if i < |a.tokens| { StepsOnlyRevoke(a, s, i); }
    }
  }

  // A session that has been signed in and has no live token never has one again.
  lemma {:induction false} EmptiedStaysEmpty(run: seq<Step>, more: seq<Step>, session: nat)
    requires session in Exec(run).issued && Empty(Exec(run).tokens, session)
    ensures session in Exec(run + more).issued && Empty(Exec(run + more).tokens, session)
  {
    if |more| == 0 {
      assert run + more == run;
    } else {
      var front := more[..|more| - 1];
      EmptiedStaysEmpty(run, front, session);
      RunKeepsInv(run + front);
      assert (run + more)[..|run + more| - 1] == run + front;
      StepKeepsEmpty(Exec(run + front), more[|more| - 1], session);
    }
  }

  // ---- Does the reuse response empty the session? ----------------------------

  lemma Then(run: seq<Step>, s: Step)
    ensures Exec(run + [s]) == Apply(Exec(run), s)
  {
    assert (run + [s])[..|run|] == run;
  }

  // What other threads do while thread `t` is between its read and its write.
  predicate LeavesAlone(mid: seq<Step>, t: nat) {
    forall s | s in mid :: !s.Issue? ==> s.thread != t
  }

  predicate OnlyRevoked(before: seq<Token>, after: seq<Token>) {
    && |before| <= |after|
    && forall i | 0 <= i < |before| ::
         && after[i].session == before[i].session && after[i].user == before[i].user
         && after[i].expiresAt == before[i].expiresAt && (before[i].revoked ==> after[i].revoked)
  }

  lemma OtherStepsLeaveThread(a: Auth, s: Step, t: nat)
    requires t in a.threads && (!s.Issue? ==> s.thread != t)
    ensures t in Apply(a, s).threads && Apply(a, s).threads[t] == a.threads[t]
  {
  }

  lemma StepOnlyRevokes(a: Auth, s: Step)
    requires Inv(a)
    ensures OnlyRevoked(a.tokens, Apply(a, s).tokens)
  {
    forall i: nat | i < |a.tokens|
      ensures i < |Apply(a, s).tokens| && Apply(a, s).tokens[i].session == a.tokens[i].session
      ensures Apply(a, s).tokens[i].user == a.tokens[i].user
      ensures Apply(a, s).tokens[i].expiresAt == a.tokens[i].expiresAt
      ensures a.tokens[i].revoked ==> Apply(a, s).tokens[i].revoked
    {
      StepsOnlyRevoke(a, s, i);
    }
    StepAddsTokens(a, s);
  }

  lemma StepAddsTokens(a: Auth, s: Step)
    ensures |Apply(a, s).tokens| >= |a.tokens|
  {
  }

  lemma {:induction false} MeanwhileOnlyRevokes(run: seq<Step>, mid: seq<Step>, t: nat)
    requires t in Exec(run).threads && LeavesAlone(mid, t)
    ensures t in Exec(run + mid).threads && Exec(run + mid).threads[t] == Exec(run).threads[t]
    ensures OnlyRevoked(Exec(run).tokens, Exec(run + mid).tokens)
  {
    if |mid| == 0 {
      assert run + mid == run;
    } else {
      var front, last := mid[..|mid| - 1], mid[|mid| - 1];
      MeanwhileOnlyRevokes(run, front, t);
      RunKeepsInv(run + front);
      assert run + mid == run + front + [last];
      Then(run + front, last);
      OtherStepsLeaveThread(Exec(run + front), last, t);
      StepOnlyRevokes(Exec(run + front), last);
    }
  }

  predicate NoneLive(tokens: seq<Token>, scope: Scope) {
    forall i: nat | i < |tokens| && InScope(tokens[i], scope) :: tokens[i].revoked
  }

  // A live token that was there when the UPDATE read was live then, and so seen.
  lemma SweepReachesTheOld(before: seq<Token>, after: seq<Token>, scope: Scope)
    requires OnlyRevoked(before, after)
    ensures NoneLive(Swept(after, LiveIn(before, scope)), scope) <==>
            forall i: nat | |before| <= i < |after| && InScope(after[i], scope) :: after[i].revoked
  {
    var seen := LiveIn(before, scope);
    var swept := Swept(after, seen);
    forall i: nat | i < |before| && InScope(after[i], scope) ensures swept[i].revoked {
      assert before[i].revoked || i in seen;
    }
    if NoneLive(swept, scope) {
      forall i: nat | |before| <= i < |after| && InScope(after[i], scope) ensures after[i].revoked {
        assert i !in seen && swept[i] == after[i];
      }
    }
  }

  // Whatever commits between its read and its write, a revocation of a session,
  // of a user, or of all of a user's sessions but one leaves no live token in
  // its scope if and only if none that was added there in between is still live.
  lemma SweepEmptiesExactly(run: seq<Step>, t: nat, mid: seq<Step>)
    requires t in Exec(run).threads && Exec(run).threads[t].Revoking?
    requires LeavesAlone(mid, t)
    ensures var scope := Exec(run).threads[t].scope;
            var late := Exec(run + [SweepSees(t)] + mid);
            NoneLive(Exec(run + [SweepSees(t)] + mid + [SweepWrites(t)]).tokens, scope) <==>
            forall i: nat | |Exec(run).tokens| <= i < |late.tokens| && InScope(late.tokens[i], scope) ::
              late.tokens[i].revoked
  {
    var a := Exec(run);
    var r1 := run + [SweepSees(t)];
    Then(run, SweepSees(t));
    assert Exec(r1).threads[t] == Sweeping(a.threads[t].scope, LiveIn(a.tokens, a.threads[t].scope));
    MeanwhileOnlyRevokes(r1, mid, t);
    WriteOfSweep(r1 + mid, t, a.tokens, a.threads[t].scope);
    SweepReachesTheOld(a.tokens, Exec(r1 + mid).tokens, a.threads[t].scope);
  }

  lemma WriteOfSweep(run: seq<Step>, t: nat, before: seq<Token>, scope: Scope)
    requires t in Exec(run).threads && Exec(run).threads[t] == Sweeping(scope, LiveIn(before, scope))
    ensures Exec(run + [SweepWrites(t)]).tokens == Swept(Exec(run).tokens, LiveIn(before, scope))
  {
    Then(run, SweepWrites(t));
  }

  // The step rotates a live token of the scope, or signs a session of it in.
  predicate Rotates(a: Auth, s: Step, scope: Scope) {
    && s.Rotate? && s.thread in a.threads && a.threads[s.thread].Rotating?
    && a.threads[s.thread].token < |a.tokens|
    && InScope(a.tokens[a.threads[s.thread].token], scope) && !a.tokens[a.threads[s.thread].token].revoked
  }

  predicate SignsIn(a: Auth, s: Step, scope: Scope) {
    s.Issue? && s.session !in a.issued && InScope(Fresh(s.user, s.session, s.expiresAt), scope)
  }

  lemma OnlyThoseAdd(a: Auth, s: Step, scope: Scope, i: nat)
    requires !Rotates(a, s, scope) && !SignsIn(a, s, scope)
    requires |a.tokens| <= i < |Apply(a, s).tokens|
    ensures !InScope(Apply(a, s).tokens[i], scope)
  {
  }

  predicate QuietFor(run: seq<Step>, mid: seq<Step>, scope: Scope) {
    |mid| == 0
    || (&& QuietFor(run, mid[..|mid| - 1], scope)
        && !Rotates(Exec(run + mid[..|mid| - 1]), mid[|mid| - 1], scope)
        && !SignsIn(Exec(run + mid[..|mid| - 1]), mid[|mid| - 1], scope))
  }

  // From position `n` on no token is in the scope.
  predicate NoneFrom(tokens: seq<Token>, n: nat, scope: Scope) {
    forall i | n <= i < |tokens| :: !InScope(tokens[i], scope)
  }

  lemma StepKeepsNoneFrom(a: Auth, s: Step, n: nat, scope: Scope)
    requires Inv(a) && !Rotates(a, s, scope) && !SignsIn(a, s, scope) && NoneFrom(a.tokens, n, scope)
    ensures NoneFrom(Apply(a, s).tokens, n, scope)
  {
    StepOnlyRevokes(a, s);
    forall i: nat | n <= i < |Apply(a, s).tokens| ensures !InScope(Apply(a, s).tokens[i], scope) {
      if i >= |a.tokens| { OnlyThoseAdd(a, s, scope, i); }
    }
  }

  lemma {:induction false} QuietAddsNothing(run: seq<Step>, mid: seq<Step>, scope: Scope)
    requires QuietFor(run, mid, scope)
    ensures NoneFrom(Exec(run + mid).tokens, |Exec(run).tokens|, scope)
  {
    if |mid| == 0 {
      assert run + mid == run;
    } else {
      var front, last := mid[..|mid| - 1], mid[|mid| - 1];
      QuietAddsNothing(run, front, scope);
      RunKeepsInv(run + front);
      assert run + mid == run + front + [last];
      Then(run + front, last);
      StepKeepsNoneFrom(Exec(run + front), last, |Exec(run).tokens|, scope);
    }
  }

  // So it always does when no rotation and no sign-in of the scope commits in
  // between; a session that is known is never signed in again.
  lemma QuietSweepEmpties(run: seq<Step>, t: nat, mid: seq<Step>)
    requires t in Exec(run).threads && Exec(run).threads[t].Revoking?
    requires LeavesAlone(mid, t)
    requires QuietFor(run + [SweepSees(t)], mid, Exec(run).threads[t].scope)
    ensures NoneLive(Exec(run + [SweepSees(t)] + mid + [SweepWrites(t)]).tokens, Exec(run).threads[t].scope)
  {
    Then(run, SweepSees(t));
    QuietAddsNothing(run + [SweepSees(t)], mid, Exec(run).threads[t].scope);
    SweepEmptiesExactly(run, t, mid);
  }

  lemma KnownSessionIsNotSignedIn(a: Auth, s: Step, session: nat)
    requires session in a.issued
    ensures !SignsIn(a, s, OfSession(session)) && session in Apply(a, s).issued
  {
  }

  // In every run the tokens of one session are one user's.
  lemma SessionsHaveOneUser(run: seq<Step>, i: nat, k: nat)
    requires var ts := Exec(run).tokens; i < |ts| && k < |ts| && ts[i].session == ts[k].session
    ensures Exec(run).tokens[i].user == Exec(run).tokens[k].user
  {
    RunKeepsInv(run);
  }

  // Revoking all of a user's tokens, with nothing of that user committing in
  // between, leaves none live of the user nor of any session of the user.
  lemma RevokingAUserEndsTheirSessions(run: seq<Step>, t: nat, mid: seq<Step>, user: nat, i: nat, k: nat)
    requires t in Exec(run).threads && Exec(run).threads[t] == Revoking(OfUser(user))
    requires LeavesAlone(mid, t) && QuietFor(run + [SweepSees(t)], mid, OfUser(user))
    requires var ts := Exec(run + [SweepSees(t)] + mid + [SweepWrites(t)]).tokens;
             i < |ts| && k < |ts| && ts[i].session == ts[k].session && ts[k].user == user
    ensures Exec(run + [SweepSees(t)] + mid + [SweepWrites(t)]).tokens[i].revoked
  {
    QuietSweepEmpties(run, t, mid);
    SessionsHaveOneUser(run + [SweepSees(t)] + mid + [SweepWrites(t)], i, k);
  }

  // ---- A refresh from beginning to end ---------------------------------------

  lemma PreCheckDecides(run: seq<Step>, t: nat, i: nat, now: int)
    requires t !in Exec(run).threads && i < |Exec(run).tokens|
    ensures var a, b := Exec(run), Exec(run + [PreCheck(t, i, now)]);
            && b.tokens == a.tokens
            && (t in b.threads <==> a.tokens[i].revoked || now <= a.tokens[i].expiresAt)
            && (a.tokens[i].revoked ==> b.threads[t] == Revoking(OfSession(a.tokens[i].session)))
            && (!a.tokens[i].revoked && now <= a.tokens[i].expiresAt ==> b.threads[t] == Rotating(i))
  {
    Then(run, PreCheck(t, i, now));
  }

  lemma RotateDecides(run: seq<Step>, t: nat, i: nat, expiresAt: int)
    requires t in Exec(run).threads && Exec(run).threads[t] == Rotating(i) && i < |Exec(run).tokens|
    ensures var b := Exec(run).tokens;
            Exec(run + [Rotate(t, expiresAt)]).tokens ==
              if b[i].revoked then b
              else b[i := b[i].(revoked := true, replacedBy := Some(|b|))]
                   + [Token(b[i].session, b[i].user, false, None, expiresAt)]
  {
    Then(run, Rotate(t, expiresAt));
  }

  // Whatever commits between the two looks: a token that was live and not past
  // its expiry at the first and is live at the second is revoked and succeeded
  // by one of the same session and user with the expiry given; a token that was
  // not yields nothing, and one found revoked at the first has its session
  // revoked next.
  lemma RefreshExactly(run: seq<Step>, t: nat, i: nat, now: int, mid: seq<Step>, expiresAt: int)
    requires t !in Exec(run).threads && i < |Exec(run).tokens| && LeavesAlone(mid, t)
    requires !Exec(run).tokens[i].revoked && now <= Exec(run).tokens[i].expiresAt
    ensures var a := Exec(run).tokens[i];
            var b := Exec(run + [PreCheck(t, i, now)] + mid).tokens;
            && i < |b|
            && Exec(run + [PreCheck(t, i, now)] + mid + [Rotate(t, expiresAt)]).tokens ==
               (if b[i].revoked then b
                else b[i := b[i].(revoked := true, replacedBy := Some(|b|))]
                     + [Token(a.session, a.user, false, None, expiresAt)])
  {
    PreCheckDecides(run, t, i, now);
    MeanwhileOnlyRevokes(run + [PreCheck(t, i, now)], mid, t);
    RotateDecides(run + [PreCheck(t, i, now)] + mid, t, i, expiresAt);
  }

  // One session whose first token was rotated once.
  function RotatedOnce(): seq<Token> { [Token(1, 7, true, Some(1), 9), Fresh(7, 1, 9)] }

  lemma RotatedOnceIsReached() returns (run: seq<Step>)
    ensures Exec(run) == Auth(RotatedOnce(), {1}, map[])
  {
    run := [] + [Issue(7, 1, 9)] + [PreCheck(1, 0, 0)] + [Rotate(1, 9)];
    Then([], Issue(7, 1, 9));
    Then([] + [Issue(7, 1, 9)], PreCheck(1, 0, 0));
    Then([] + [Issue(7, 1, 9)] + [PreCheck(1, 0, 0)], Rotate(1, 9));
    var a1 := Apply(Auth([], {}, map[]), Issue(7, 1, 9));
    assert a1 == Auth([Fresh(7, 1, 9)], {1}, map[]);
    assert Apply(a1, PreCheck(1, 0, 0)).threads == map[1 := Rotating(0)];
  }

  // The old token is presented again; the response reads what is live; then the
  // live token is rotated, and the response writes.
  lemma SlipsPast(a: Auth)
    requires a == Auth(RotatedOnce(), {1}, map[])
    ensures var a2 := Apply(Apply(a, PreCheck(2, 0, 0)), PreCheck(3, 1, 0));
            var a4 := Apply(Apply(a2, SweepSees(2)), Rotate(3, 9));
            var a5 := Apply(a4, SweepWrites(2));
            |a5.tokens| == 3 && a5.threads == map[] && !a5.tokens[2].revoked && a5.tokens[2].session == 1
  {
    var a1 := Apply(a, PreCheck(2, 0, 0));
    assert a1.threads == map[2 := Revoking(OfSession(1))];
    var a2 := Apply(a1, PreCheck(3, 1, 0));
    assert a2.threads == map[2 := Revoking(OfSession(1)), 3 := Rotating(1)];
    var seen := LiveIn(RotatedOnce(), OfSession(1));
    assert 2 !in seen;
    var a3 := Apply(a2, SweepSees(2));
    assert a3.threads == map[2 := Sweeping(OfSession(1), seen), 3 := Rotating(1)];
    var a4 := Apply(a3, Rotate(3, 9));
    assert a4.threads == map[2 := Sweeping(OfSession(1), seen)];
  }

  // A rotation that commits between the response's read and its write is
  // missed: the response is over and the session still has a live token.
  lemma RotationSlipsPastSweep() returns (run: seq<Step>)
    ensures var a := Exec(run);
            |a.tokens| == 3 && a.threads == map[] && !a.tokens[2].revoked && a.tokens[2].session == 1
  {
    var r0 := RotatedOnceIsReached();
    var r1 := r0 + [PreCheck(2, 0, 0)];
    var r2 := r1 + [PreCheck(3, 1, 0)];
    var r3 := r2 + [SweepSees(2)];
    var r4 := r3 + [Rotate(3, 9)];
    Then(r0, PreCheck(2, 0, 0));
    Then(r1, PreCheck(3, 1, 0));
    Then(r2, SweepSees(2));
    Then(r3, Rotate(3, 9));
    Then(r4, SweepWrites(2));
    SlipsPast(Exec(r0));
    run := r4 + [SweepWrites(2)];
  }

  // ---- The service -----------------------------------------------------------

  datatype RotateError = Invalid | ReuseDetected | ExpiredToken

  class TokensService {
    var tokens: seq<Token>

    constructor ()
      ensures tokens == []
    {
      tokens := [];
    }

    method IssueToken(user: nat, session: nat, expiresAt: int) returns (id: nat)
      modifies this
      ensures id == |old(tokens)| && tokens == old(tokens) + [Fresh(user, session, expiresAt)]
    {
      id := |tokens|;
      tokens := tokens + [Token(session, user, false, None, expiresAt)];
    }

    // `found` is the row as the unlocked pre-check read it. A token already
    // revoked then revokes its session and fails; one revoked since fails
    // without touching anything.
    method RotateRefreshToken(i: nat, found: Option<Token>, now: int, expiresAt: int)
      returns (r: Result<nat, RotateError>)
      requires found.Some? ==> i < |tokens| && found.value.session == tokens[i].session
      modifies this
      ensures r == if found.None? then Failure(Invalid)
                   else if found.value.revoked then Failure(ReuseDetected)
                   else if found.value.expiresAt < now then Failure(ExpiredToken)
                   else if old(tokens)[i].revoked then Failure(ReuseDetected)
                   else Success(|old(tokens)|)
      ensures r.Success? ==> tokens == Rotated(old(tokens), i, expiresAt)
      ensures r.Failure? ==>
                tokens == if found.Some? && found.value.revoked
                          then Swept(old(tokens), LiveIn(old(tokens), OfSession(found.value.session)))
                          else old(tokens)
    {
      if found.None? {
        return Failure(Invalid);
      }
      if found.value.revoked {
        RevokeSession(found.value.session);
        return Failure(ReuseDetected);
      }
      if found.value.expiresAt < now {
        return Failure(ExpiredToken);
      }
      var locked := tokens[i];
      if locked.revoked {
        return Failure(ReuseDetected);
      }
      var id := |tokens|;
      tokens := tokens + [Token(locked.session, locked.user, false, None, expiresAt)];
      tokens := tokens[i := locked.(revoked := true, replacedBy := Some(id))];
      r := Success(id);
    }

    method RevokeAllRefreshTokensForUser(user: nat)
      modifies this
      ensures tokens == Swept(old(tokens), LiveIn(old(tokens), OfUser(user)))
      ensures NoneLive(tokens, OfUser(user))
    {
      tokens := seq(|tokens|, i requires 0 <= i < |tokens| reads this =>
        if tokens[i].user == user && !tokens[i].revoked then tokens[i].(revoked := true) else tokens[i]);
    }

    method RevokeAllRefreshTokensForUserExcept(user: nat, kept: nat)
      modifies this
      ensures tokens == Swept(old(tokens), LiveIn(old(tokens), OfUserExcept(user, kept)))
      ensures forall i: nat | i < |tokens| && tokens[i].user == user && tokens[i].session != kept :: tokens[i].revoked
      ensures forall i: nat | i < |tokens| && tokens[i].session == kept :: tokens[i] == old(tokens)[i]
    {
      tokens := seq(|tokens|, i requires 0 <= i < |tokens| reads this =>
        if tokens[i].user == user && tokens[i].session != kept && !tokens[i].revoked
        then tokens[i].(revoked := true) else tokens[i]);
    }

    method RevokeSession(session: nat)
      modifies this
      ensures tokens == Swept(old(tokens), LiveIn(old(tokens), OfSession(session)))
      ensures Empty(tokens, session)
    {
      tokens := seq(|tokens|, i requires 0 <= i < |tokens| reads this =>
        if tokens[i].session == session && !tokens[i].revoked then tokens[i].(revoked := true) else tokens[i]);
    }
  }
}
