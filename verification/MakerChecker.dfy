// Manual postings across two services: requested and approved in the console,
// applied by the payment service over a connection that loses replies.
module MakerChecker {
  import opened Prelude
  import opened Ledger
  import opened Machine
  import opened Safety

  datatype PostingStatus = PENDING | PROCESSING | POSTED | REJECTED | CANCELLED | FAILED

  datatype Posting = Posting(
    wallet: nat,
    source: Option<nat>,          // the unmatched deposit it assigns, if any
    direction: Direction,
    amount: int,
    status: PostingStatus,
    requestedBy: nat,
    decidedBy: Option<nat>,
    transactionId: Option<nat>,
    balanceAfter: Option<int>)

  datatype Reply = Applied(transactionId: nat, balanceAfter: Option<int>) | Refused

  // One approval call on its way to the payment service or back; `missed` once
  // the service's first lookup found no row with its reference.
  datatype Flight = Flight(posting: string, missed: bool, reply: Option<Reply>)

  datatype Office = Office(pay: World, postings: map<string, Posting>, flights: map<nat, Flight>)

  datatype OfficeStep =
    | Pay(step: Step)
    | Request(id: string, wallet: nat, source: Option<nat>, direction: Direction, amount: int, staff: nat)
    | Approve(attempt: nat, id: string, staff: nat)
    | Look(attempt: nat)
    | Deliver(attempt: nat, now: int)
    | Lose(attempt: nat)
    | Record(attempt: nat)
    | Reject(id: string, staff: nat)
    | Cancel(id: string, staff: nat)

  function PostingReference(id: string): string { "MAN-" + id }

  // ---- The console -----------------------------------------------------------

  predicate IsOpenPosting(p: Posting) { p.status.PENDING? || p.status.PROCESSING? }

  // One open posting per deposit: the partial unique index.
  predicate SourceOpen(postings: map<string, Posting>, s: nat) {
    exists id | id in postings :: postings[id].source == Some(s) && IsOpenPosting(postings[id])
  }

  // The customer has a wallet, which covers a debit for now. The deposit was
  // seen UNMATCHED, without a lock; its amount is the posting's.
  predicate MayRequest(o: Office, id: string, wallet: nat, source: Option<nat>, direction: Direction, amount: int) {
    && id !in o.postings && amount > 0 && wallet < |o.pay.db.wallets|
    && (direction.Debit? ==> o.pay.db.wallets[wallet] >= amount)
    && (source.Some? ==>
          && source.value in o.pay.parked && source.value < |o.pay.db.rows|
          && direction.Credit? && amount == o.pay.db.rows[source.value].amount
          && !SourceOpen(o.postings, source.value))
  }

  // The conditional UPDATE: PENDING moves to `to`, anything else is left.
  predicate CanClaim(postings: map<string, Posting>, id: string) {
    id in postings && postings[id].status.PENDING?
  }

  function Claimed(postings: map<string, Posting>, id: string, to: PostingStatus, staff: nat): map<string, Posting>
    requires CanClaim(postings, id)
  {
    postings[id := postings[id].(status := to, decidedBy := Some(staff))]
  }

  predicate CanRetry(postings: map<string, Posting>, id: string, staff: nat) {
    id in postings && postings[id].status.PROCESSING? && postings[id].decidedBy == Some(staff)
  }

  function AfterReply(postings: map<string, Posting>, id: string, reply: Reply): map<string, Posting>
    requires id in postings
  {
    match reply
    case Applied(t, b) =>
      postings[id := postings[id].(status := POSTED, transactionId := Some(t), balanceAfter := b)]
    case Refused => postings[id := postings[id].(status := FAILED)]
  }

  // ---- The steps -------------------------------------------------------------

  function RowOf(rows: seq<Txn>, reference: string): (i: nat)
    requires ReferenceTaken(rows, Manual, reference)
    ensures i < |rows| && rows[i].provider == Manual && rows[i].reference == reference
  {
    if rows[|rows| - 1].provider == Manual && rows[|rows| - 1].reference == reference then |rows| - 1
    else RowOf(rows[..|rows| - 1], reference)
  }

  function PostingRequest(p: Posting, id: string, now: int): PostRequest {
    PostRequest(p.wallet, p.direction, p.amount, PostingReference(id), now)
  }

  // What approving sends to the payment service.
  datatype Call =
    | Move(wallet: nat, direction: Direction, amount: int, reference: string)
    | AssignDeposit(deposit: nat, wallet: nat, reference: string)

  function CallFor(p: Posting, id: string): Call {
    if p.source.Some? then AssignDeposit(p.source.value, p.wallet, PostingReference(id))
    else Move(p.wallet, p.direction, p.amount, PostingReference(id))
  }

  // What the payment service does with a call and answers. A lookup that missed
  // may be stale by then: the wallet is tried first, and only the unique index
  // tells that the posting was applied meanwhile.
  function Serve(pay: World, call: Call, now: int, missed: bool): (World, Reply) {
    match call
    case AssignDeposit(i, wallet, reference) =>
      if AssignRefusal(pay.db, i, wallet).Some? then (pay, Refused)
      else
        var pay' := Apply(pay, Assign(i, wallet, reference));
        (pay', if i < |pay'.db.rows| then Applied(i, pay'.db.rows[i].balanceAfter) else Refused)
    case Move(wallet, direction, amount, reference) =>
      var q := PostRequest(wallet, direction, amount, reference, now);
      if (if missed then RacingRefusal(pay.db, q) else PostRefusal(pay.db, q)).Some? then (pay, Refused)
      else
        var pay' := Apply(pay, Post(q));
        if ReferenceTaken(pay'.db.rows, Manual, reference) then
          var t := RowOf(pay'.db.rows, reference);
          (pay', Applied(t, pay'.db.rows[t].balanceAfter))
        else (pay, Refused)
  }

  function Handle(pay: World, p: Posting, id: string, now: int, missed: bool): (World, Reply) {
    Serve(pay, CallFor(p, id), now, missed)
  }

  function Without(m: map<nat, Flight>, k: nat): map<nat, Flight> {
    map x | x in m && x != k :: m[x]
  }

  function Sent(id: string): Flight { Flight(id, false, None) }

  // A direct posting's call finds no row with its reference.
  predicate CanLook(o: Office, a: nat) {
    && a in o.flights && o.flights[a].reply.None? && o.flights[a].posting in o.postings
    && o.postings[o.flights[a].posting].source.None?
    && !ReferenceTaken(o.pay.db.rows, Manual, PostingReference(o.flights[a].posting))
  }

  function Act(o: Office, s: OfficeStep): Office {
    match s
    case Pay(step) => if step.Post? || step.Assign? then o else o.(pay := Apply(o.pay, step))
    case Request(id, wallet, source, direction, amount, staff) =>
      if MayRequest(o, id, wallet, source, direction, amount) then
        o.(postings := o.postings[id := Posting(wallet, source, direction, amount, PENDING, staff, None, None, None)])
      else o
    case Approve(a, id, staff) =>
      if a in o.flights || id !in o.postings || o.postings[id].requestedBy == staff then o
      else if CanClaim(o.postings, id) then
        o.(postings := Claimed(o.postings, id, PROCESSING, staff), flights := o.flights[a := Sent(id)])
      else if CanRetry(o.postings, id, staff) then
        o.(flights := o.flights[a := Sent(id)])
      else o
    case Look(a) =>
      if CanLook(o, a) then o.(flights := o.flights[a := o.flights[a].(missed := true)]) else o
    case Deliver(a, now) =>
      if a in o.flights && o.flights[a].reply.None? && o.flights[a].posting in o.postings then
        var id := o.flights[a].posting;
        var (pay', reply) := Handle(o.pay, o.postings[id], id, now, o.flights[a].missed);
        o.(pay := pay', flights := o.flights[a := o.flights[a].(reply := Some(reply))])
      else o
    case Lose(a) => o.(flights := Without(o.flights, a))
    case Record(a) =>
      if a in o.flights && o.flights[a].reply.Some? && o.flights[a].posting in o.postings then
        o.(postings := AfterReply(o.postings, o.flights[a].posting, o.flights[a].reply.value),
           flights := Without(o.flights, a))
      else o
    case Reject(id, staff) =>
      if CanClaim(o.postings, id) && o.postings[id].requestedBy != staff then
        o.(postings := Claimed(o.postings, id, REJECTED, staff))
      else o
    case Cancel(id, staff) =>
      if CanClaim(o.postings, id) && o.postings[id].requestedBy == staff then
        o.(postings := Claimed(o.postings, id, CANCELLED, staff))
      else o
  }

  function Opening(opening: int): Office { Office(Start(opening), map[], map[]) }

  function Play(opening: int, run: seq<OfficeStep>): Office {
    if |run| == 0 then Opening(opening)
    else Act(Play(opening, run[..|run| - 1]), run[|run| - 1])
  }

  // ---- What holds ------------------------------------------------------------

  // Row `t` is this posting's doing.
  predicate IsDoingOf(t: Txn, id: string) {
    (t.provider.Manual? && t.reference == PostingReference(id)) || t.resolvedBy == Some(PostingReference(id))
  }

  predicate WasApplied(rows: seq<Txn>, id: string) {
    exists t | 0 <= t < |rows| :: IsDoingOf(rows[t], id)
  }

  // Row `t` carries out posting `p`.
  predicate CarriesOut(rows: seq<Txn>, p: Posting, id: string, t: nat, b: Option<int>) {
    && t < |rows| && rows[t].status.Successful? && rows[t].walletId == Some(p.wallet)
    && rows[t].amount == p.amount && rows[t].direction == p.direction && rows[t].balanceAfter == b
    && (p.source.None? ==> rows[t].provider.Manual? && rows[t].reference == PostingReference(id))
    && (p.source.Some? ==> t == p.source.value && rows[t].resolvedBy.Some?)
  }

  // No money moves that no posting stands for.
  predicate RowBacked(postings: map<string, Posting>, rows: seq<Txn>, t: nat)
    requires t < |rows|
  {
    && (rows[t].provider.Manual? ==>
          exists id | id in postings ::
            rows[t].reference == PostingReference(id) && CarriesOut(rows, postings[id], id, t, rows[t].balanceAfter))
    && (rows[t].resolvedBy.Some? ==>
          exists id | id in postings ::
            rows[t].resolvedBy == Some(PostingReference(id)) && postings[id].source == Some(t)
            && CarriesOut(rows, postings[id], id, t, rows[t].balanceAfter))
  }

  // The deposit `p` would have assigned is another customer's.
  predicate LostToAnother(rows: seq<Txn>, p: Posting) {
    && p.source.Some? && p.source.value < |rows|
    && rows[p.source.value].resolvedBy.Some? && rows[p.source.value].status.Successful?
    && rows[p.source.value].walletId.Some? && rows[p.source.value].walletId != Some(p.wallet)
  }

  // Someone approved it.
  predicate WasSent(s: PostingStatus) { s.PROCESSING? || s.POSTED? || s.FAILED? }

  predicate PostingOk(o: Office, id: string)
    requires id in o.postings
  {
    var p := o.postings[id];
    && p.amount > 0 && p.wallet < |o.pay.db.wallets|
    && (p.source.Some? ==> p.source.value in o.pay.parked && p.source.value < |o.pay.db.rows|
                           && p.direction.Credit? && p.amount == o.pay.db.rows[p.source.value].amount)
    && (p.status.POSTED? ==>
          p.transactionId.Some? && CarriesOut(o.pay.db.rows, p, id, p.transactionId.value, p.balanceAfter))
    && (!WasSent(p.status) ==> !WasApplied(o.pay.db.rows, id))
    && (p.status.FAILED? && p.direction.Credit? ==> LostToAnother(o.pay.db.rows, p))
  }

  // Any number of calls for one posting may be out at once.
  predicate FlightOk(o: Office, f: Flight) {
    && f.posting in o.postings && WasSent(o.postings[f.posting].status)
    && (f.reply.Some? && f.reply.value.Applied? ==>
          CarriesOut(o.pay.db.rows, o.postings[f.posting], f.posting,
                     f.reply.value.transactionId, f.reply.value.balanceAfter))
    && (f.reply == Some(Refused) && o.postings[f.posting].direction.Credit? ==>
          LostToAnother(o.pay.db.rows, o.postings[f.posting]))
  }

  predicate ConsoleOk(o: Office) {
    && (forall id | id in o.postings :: PostingOk(o, id))
    && (forall t: nat | t < |o.pay.db.rows| :: RowBacked(o.postings, o.pay.db.rows, t))
    && (forall a | a in o.flights :: FlightOk(o, o.flights[a]))
  }

  ghost predicate OfficeOk(o: Office) { Inv(o.pay) && ConsoleOk(o) }

  lemma PostingReferenceIsInjective(a: string, b: string)
    ensures PostingReference(a) == PostingReference(b) ==> a == b
  {
    assert PostingReference(a)[4..] == a;
    assert PostingReference(b)[4..] == b;
  }

  // ---- Payment steps under the console ---------------------------------------

  // A staff row and an assigned deposit are final: every later step of the
  // payment service leaves them as they are.
  predicate StaffRow(t: Txn) { t.provider.Manual? || t.resolvedBy.Some? }

  predicate StaffRowsKept(rows: seq<Txn>, rows': seq<Txn>) {
    && |rows| <= |rows'|
    && (forall i | 0 <= i < |rows| && StaffRow(rows[i]) :: rows'[i] == rows[i])
    && (forall i | 0 <= i < |rows| && !StaffRow(rows[i]) :: !StaffRow(rows'[i]))
    && (forall i | |rows| <= i < |rows'| :: !StaffRow(rows'[i]))
    && (forall i | 0 <= i < |rows| :: rows'[i].amount == rows[i].amount)
  }

  lemma StaffRowsArePlain(w: World, i: nat)
    requires Inv(w) && i < |w.db.rows| && StaffRow(w.db.rows[i])
    ensures !IsOutgoing(w.db.rows[i]) && i !in w.jobs && w.db.rows[i].status.Successful?
  {
    assert ShapeOk(w.db.rows[i]);
    assert i in w.jobs ==> JobOk(w.db.rows, i, w.jobs[i]);
  }

  lemma RefundKeepsStaffRows(w: World, i: nat, now: int)
    requires Inv(w) && i < |w.db.rows| && IsOutgoing(w.db.rows[i]) && RefundRefusal(w.db, i).None?
    ensures StaffRowsKept(w.db.rows, RefundTx(w.db, i, now).rows)
  {
    assert ShapeOk(w.db.rows[i]);
    var r := RefundTxRows(w.db, i, now);
    forall k: nat | k < |w.db.rows| && StaffRow(w.db.rows[k]) ensures k != i {
      StaffRowsArePlain(w, k);
    }
  }

  lemma RewriteKeepsStaffRows(rows: seq<Txn>, i: nat, u: Txn)
    requires i < |rows| && !StaffRow(rows[i]) && !StaffRow(u) && u.amount == rows[i].amount
    ensures StaffRowsKept(rows, rows[i := u])
  {
  }

  lemma AppendKeepsStaffRows(rows: seq<Txn>, t: Txn)
    requires !StaffRow(t)
    ensures StaffRowsKept(rows, rows + [t])
  {
  }

  lemma ProviderRowsAreNotStaff(w: World, i: nat)
    requires Inv(w) && i < |w.db.rows| && (IsOutgoing(w.db.rows[i]) || i in w.jobs)
    ensures !StaffRow(w.db.rows[i])
  {
    assert ShapeOk(w.db.rows[i]);
    assert i in w.jobs ==> JobOk(w.db.rows, i, w.jobs[i]);
  }

  lemma OutgoingStepsKeepStaffRows(w: World, s: Step)
    requires Inv(w) && (s.WriteSuccess? || s.CommitReversal?)
    ensures StaffRowsKept(w.db.rows, Apply(w, s).db.rows)
  {
    if s.thread in w.threads && w.threads[s.thread].txn < |w.db.rows| {
      var i := w.threads[s.thread].txn;
      assert PcOk(w.db.rows, w.answers, w.threads[s.thread]);
      ProviderRowsAreNotStaff(w, i);
      if s.WriteSuccess? {
        RewriteKeepsStaffRows(w.db.rows, i, w.db.rows[i].(status := Successful));
      } else if RefundRefusal(w.db, i).None? {
        RefundKeepsStaffRows(w, i, s.now);
      }
    }
  }

  // What a worker's writes leave of the row they write.
  lemma JobStepRewrites(w: World, s: Step)
    requires s.JobMark? || s.JobCredit? || s.JobExhausted?
    ensures var rows, rows' := w.db.rows, Apply(w, s).db.rows;
            rows' == rows || (&& s.txn in w.jobs && s.txn < |rows| && |rows'| == |rows|
                              && rows' == rows[s.txn := rows'[s.txn]]
                              && rows'[s.txn].amount == rows[s.txn].amount
                              && rows'[s.txn].provider == rows[s.txn].provider
                              && (rows'[s.txn].resolvedBy == rows[s.txn].resolvedBy || rows'[s.txn].resolvedBy.None?))
  {
  }

  lemma JobStepsKeepStaffRows(w: World, s: Step)
    requires Inv(w) && (s.JobMark? || s.JobCredit? || s.JobExhausted?)
    ensures StaffRowsKept(w.db.rows, Apply(w, s).db.rows)
  {
    JobStepRewrites(w, s);
    if Apply(w, s).db.rows != w.db.rows {
      ProviderRowsAreNotStaff(w, s.txn);
      RewriteKeepsStaffRows(w.db.rows, s.txn, Apply(w, s).db.rows[s.txn]);
    }
  }

  lemma NewRowStepsKeepStaffRows(w: World, s: Step)
    requires s.InitiatePayout? || s.PayBill? || s.RecordPayin?
    ensures StaffRowsKept(w.db.rows, Apply(w, s).db.rows)
  {
    if Apply(w, s).db != w.db {
      AppendKeepsStaffRows(w.db.rows, Apply(w, s).db.rows[|w.db.rows|]);
    }
  }

  lemma OtherStepsKeepRows(w: World, s: Step)
    requires !s.Post? && !s.Assign? && !s.WriteSuccess? && !s.CommitReversal?
    requires !s.JobMark? && !s.JobCredit? && !s.JobExhausted?
    requires !s.InitiatePayout? && !s.PayBill? && !s.RecordPayin?
    ensures Apply(w, s).db.rows == w.db.rows
  {
  }

  lemma PaySteps(w: World, s: Step)
    requires Inv(w) && !s.Post? && !s.Assign?
    ensures StaffRowsKept(w.db.rows, Apply(w, s).db.rows)
  {
    if s.WriteSuccess? || s.CommitReversal? {
      OutgoingStepsKeepStaffRows(w, s);
    } else if s.JobMark? || s.JobCredit? || s.JobExhausted? {
      JobStepsKeepStaffRows(w, s);
    } else if s.InitiatePayout? || s.PayBill? || s.RecordPayin? {
      NewRowStepsKeepStaffRows(w, s);
    } else {
      OtherStepsKeepRows(w, s);
    }
  }

  lemma ParkedOnlyGrows(w: World, s: Step)
    ensures w.parked <= Apply(w, s).parked && |w.db.wallets| <= |Apply(w, s).db.wallets|
  {
  }

  // What the console relies on apart from the rows.
  predicate PayGrows(w: World, w': World) {
    w.parked <= w'.parked && |w.db.wallets| <= |w'.db.wallets|
  }

  lemma KeptRowsKeepDoings(rows: seq<Txn>, rows': seq<Txn>, id: string)
    requires StaffRowsKept(rows, rows')
    ensures WasApplied(rows', id) <==> WasApplied(rows, id)
  {
    if WasApplied(rows, id) {
      var t :| 0 <= t < |rows| && IsDoingOf(rows[t], id);
      assert StaffRow(rows[t]);
      assert IsDoingOf(rows'[t], id);
    }
    if WasApplied(rows', id) {
      var t :| 0 <= t < |rows'| && IsDoingOf(rows'[t], id);
      assert StaffRow(rows'[t]);
      assert IsDoingOf(rows[t], id);
    }
  }

  lemma KeptRowsKeepBacking(postings: map<string, Posting>, rows: seq<Txn>, rows': seq<Txn>, t: nat)
    requires StaffRowsKept(rows, rows') && t < |rows'|
    requires t < |rows| ==> RowBacked(postings, rows, t)
    ensures RowBacked(postings, rows', t)
  {
    if StaffRow(rows'[t]) {
      assert StaffRow(rows[t]) && rows'[t] == rows[t];
      if rows[t].provider.Manual? {
        var id :| id in postings && rows[t].reference == PostingReference(id)
                  && CarriesOut(rows, postings[id], id, t, rows[t].balanceAfter);
        assert CarriesOut(rows', postings[id], id, t, rows'[t].balanceAfter);
      }
      if rows[t].resolvedBy.Some? {
        var id :| id in postings && rows[t].resolvedBy == Some(PostingReference(id))
                  && postings[id].source == Some(t)
                  && CarriesOut(rows, postings[id], id, t, rows[t].balanceAfter);
        assert CarriesOut(rows', postings[id], id, t, rows'[t].balanceAfter);
      }
    }
  }

  lemma KeptRowsKeepCarriesOut(rows: seq<Txn>, rows': seq<Txn>, p: Posting, id: string, t: nat, b: Option<int>)
    requires StaffRowsKept(rows, rows') && CarriesOut(rows, p, id, t, b)
    ensures CarriesOut(rows', p, id, t, b)
  {
    assert StaffRow(rows[t]);
  }

  lemma KeptRowsKeepPosting(o: Office, o': Office, id: string)
    requires id in o.postings && PostingOk(o, id) && o'.postings == o.postings
    requires StaffRowsKept(o.pay.db.rows, o'.pay.db.rows) && PayGrows(o.pay, o'.pay)
    ensures PostingOk(o', id)
  {
    KeptRowsKeepDoings(o.pay.db.rows, o'.pay.db.rows, id);
    var p := o.postings[id];
    if p.status.POSTED? {
      KeptRowsKeepCarriesOut(o.pay.db.rows, o'.pay.db.rows, p, id, p.transactionId.value, p.balanceAfter);
    }
  }

  lemma KeptRowsKeepFlight(o: Office, o': Office, f: Flight)
    requires FlightOk(o, f) && o'.postings == o.postings
    requires StaffRowsKept(o.pay.db.rows, o'.pay.db.rows)
    ensures FlightOk(o', f)
  {
    if f.reply.Some? && f.reply.value.Applied? {
      KeptRowsKeepCarriesOut(o.pay.db.rows, o'.pay.db.rows, o.postings[f.posting], f.posting,
                             f.reply.value.transactionId, f.reply.value.balanceAfter);
    }
  }

  lemma KeptRowsKeepConsole(o: Office, o': Office)
    requires ConsoleOk(o) && o' == o.(pay := o'.pay)
    requires StaffRowsKept(o.pay.db.rows, o'.pay.db.rows) && PayGrows(o.pay, o'.pay)
    ensures ConsoleOk(o')
  {
    forall id | id in o'.postings ensures PostingOk(o', id) {
      KeptRowsKeepPosting(o, o', id);
    }
    forall t: nat | t < |o'.pay.db.rows| ensures RowBacked(o'.postings, o'.pay.db.rows, t) {
      KeptRowsKeepBacking(o.postings, o.pay.db.rows, o'.pay.db.rows, t);
    }
    forall a | a in o'.flights ensures FlightOk(o', o'.flights[a]) {
      KeptRowsKeepFlight(o, o', o.flights[a]);
    }
  }

  lemma PayKeepsOffice(o: Office, s: Step)
    requires OfficeOk(o) && !s.Post? && !s.Assign?
    ensures OfficeOk(o.(pay := Apply(o.pay, s)))
  {
    StepKeepsInv(o.pay, s);
    PaySteps(o.pay, s);
    ParkedOnlyGrows(o.pay, s);
    KeptRowsKeepConsole(o, o.(pay := Apply(o.pay, s)));
  }

  // ---- Decisions -------------------------------------------------------------

  // An id the console does not know has moved no money.
  lemma UnknownWasNotApplied(o: Office, id: string)
    requires ConsoleOk(o) && id !in o.postings
    ensures !WasApplied(o.pay.db.rows, id)
  {
    forall t: nat | t < |o.pay.db.rows| ensures !IsDoingOf(o.pay.db.rows[t], id) {
      assert RowBacked(o.postings, o.pay.db.rows, t);
      forall other | other in o.postings ensures PostingReference(other) != PostingReference(id) {
        PostingReferenceIsInjective(other, id);
      }
    }
  }

  predicate SameTerms(p: Posting, q: Posting) {
    p.wallet == q.wallet && p.source == q.source && p.direction == q.direction && p.amount == q.amount
  }

  // Postings may be added or decided; the rows they stand for stay backed.
  lemma DecisionsKeepBacking(postings: map<string, Posting>, postings': map<string, Posting>, rows: seq<Txn>, t: nat)
    requires t < |rows| && RowBacked(postings, rows, t)
    requires forall id | id in postings :: id in postings' && SameTerms(postings[id], postings'[id])
    ensures RowBacked(postings', rows, t)
  {
    if rows[t].provider.Manual? {
      var id :| id in postings && rows[t].reference == PostingReference(id)
                && CarriesOut(rows, postings[id], id, t, rows[t].balanceAfter);
      assert CarriesOut(rows, postings'[id], id, t, rows[t].balanceAfter);
    }
    if rows[t].resolvedBy.Some? {
      var id :| id in postings && rows[t].resolvedBy == Some(PostingReference(id))
                && postings[id].source == Some(t)
                && CarriesOut(rows, postings[id], id, t, rows[t].balanceAfter);
      assert CarriesOut(rows, postings'[id], id, t, rows[t].balanceAfter);
    }
  }

  // One posting gets a new value; flights of other postings, and no flight of
  // this one unless it was sent, are kept.
  lemma DecideKeepsConsole(o: Office, o': Office, id: string, p: Posting)
    requires ConsoleOk(o) && o'.pay == o.pay && o'.postings == o.postings[id := p]
    requires id in o.postings ==> SameTerms(o.postings[id], p)
    requires PostingOk(o', id)
    requires forall a | a in o'.flights :: a in o.flights && o'.flights[a] == o.flights[a]
    requires forall a | a in o'.flights && o'.flights[a].posting == id :: WasSent(p.status)
    ensures ConsoleOk(o')
  {
    forall k | k in o'.postings ensures PostingOk(o', k) {
      if k != id { assert PostingOk(o, k); }
    }
    forall t: nat | t < |o'.pay.db.rows| ensures RowBacked(o'.postings, o'.pay.db.rows, t) {
      DecisionsKeepBacking(o.postings, o'.postings, o.pay.db.rows, t);
    }
    forall a | a in o'.flights ensures FlightOk(o', o'.flights[a]) {
      assert FlightOk(o, o.flights[a]);
    }
  }

  lemma RequestKeepsConsole(o: Office, s: OfficeStep)
    requires ConsoleOk(o) && s.Request?
    ensures ConsoleOk(Act(o, s))
  {
    var o' := Act(o, s);
    if MayRequest(o, s.id, s.wallet, s.source, s.direction, s.amount) {
      UnknownWasNotApplied(o, s.id);
      forall a | a in o.flights ensures o.flights[a].posting != s.id {
        assert FlightOk(o, o.flights[a]);
      }
      DecideKeepsConsole(o, o', s.id, o'.postings[s.id]);
    }
  }

  lemma ClaimKeepsConsole(o: Office, id: string, to: PostingStatus, staff: nat)
    requires ConsoleOk(o) && CanClaim(o.postings, id) && !to.POSTED? && !to.FAILED?
    ensures ConsoleOk(o.(postings := Claimed(o.postings, id, to, staff)))
    ensures forall a | a in o.flights :: o.flights[a].posting != id
  {
    var o' := o.(postings := Claimed(o.postings, id, to, staff));
    assert PostingOk(o, id);
    forall a | a in o.flights ensures o.flights[a].posting != id {
      assert FlightOk(o, o.flights[a]);
    }
    DecideKeepsConsole(o, o', id, o'.postings[id]);
  }

  lemma LaunchKeepsConsole(o: Office, a: nat, id: string)
    requires ConsoleOk(o) && id in o.postings && o.postings[id].status.PROCESSING?
    ensures ConsoleOk(o.(flights := o.flights[a := Sent(id)]))
  {
    var o' := o.(flights := o.flights[a := Sent(id)]);
    forall k | k in o'.postings ensures PostingOk(o', k) { assert PostingOk(o, k); }
    forall b | b in o'.flights ensures FlightOk(o', o'.flights[b]) {
      if b != a { assert FlightOk(o, o.flights[b]); }
    }
  }

  lemma ApproveKeepsConsole(o: Office, s: OfficeStep)
    requires ConsoleOk(o) && s.Approve?
    ensures ConsoleOk(Act(o, s))
  {
    if s.attempt in o.flights || s.id !in o.postings || o.postings[s.id].requestedBy == s.staff {
    } else if CanClaim(o.postings, s.id) {
      ClaimKeepsConsole(o, s.id, PROCESSING, s.staff);
      LaunchKeepsConsole(o.(postings := Claimed(o.postings, s.id, PROCESSING, s.staff)), s.attempt, s.id);
    } else if CanRetry(o.postings, s.id, s.staff) {
      LaunchKeepsConsole(o, s.attempt, s.id);
    }
  }

  lemma RecordKeepsConsole(o: Office, s: OfficeStep)
    requires ConsoleOk(o) && s.Record?
    ensures ConsoleOk(Act(o, s))
  {
    var o' := Act(o, s);
    if s.attempt in o.flights && o.flights[s.attempt].reply.Some? {
      var id := o.flights[s.attempt].posting;
      assert FlightOk(o, o.flights[s.attempt]) && PostingOk(o, id);
      DecideKeepsConsole(o, o', id, o'.postings[id]);
    }
  }

  lemma LoseKeepsConsole(o: Office, s: OfficeStep)
    requires ConsoleOk(o) && s.Lose?
    ensures ConsoleOk(Act(o, s))
  {
    var o' := Act(o, s);
    forall k | k in o'.postings ensures PostingOk(o', k) { assert PostingOk(o, k); }
    forall b | b in o'.flights ensures FlightOk(o', o'.flights[b]) { assert FlightOk(o, o.flights[b]); }
  }

  // ---- The call at the payment service ---------------------------------------

  lemma ReplyKeepsConsole(o: Office, a: nat, f: Flight)
    requires ConsoleOk(o) && a in o.flights && f.posting == o.flights[a].posting && FlightOk(o, f)
    ensures ConsoleOk(o.(flights := o.flights[a := f]))
  {
    var o' := o.(flights := o.flights[a := f]);
    forall k | k in o'.postings ensures PostingOk(o', k) { assert PostingOk(o, k); }
    forall b | b in o'.flights ensures FlightOk(o', o'.flights[b]) {
      if b != a { assert FlightOk(o, o.flights[b]); }
    }
  }

  // Row `t` becomes this posting's doing; every other row stays.
  predicate BecomesDoing(rows: seq<Txn>, rows': seq<Txn>, t: nat, id: string) {
    && |rows| <= |rows'| <= |rows| + 1 && t < |rows'| && (|rows'| > |rows| ==> t == |rows|)
    && (forall i | 0 <= i < |rows| && i != t :: rows'[i] == rows[i])
    && (t < |rows| ==> !StaffRow(rows[t]) && rows'[t].amount == rows[t].amount)
    && IsDoingOf(rows'[t], id) && (rows'[t].provider.Manual? <==> rows'[t].resolvedBy.None?)
  }

  lemma OtherDoingsStay(rows: seq<Txn>, rows': seq<Txn>, t: nat, id: string, k: string)
    requires BecomesDoing(rows, rows', t, id) && k != id
    ensures WasApplied(rows', k) <==> WasApplied(rows, k)
  {
    PostingReferenceIsInjective(id, k);
    if WasApplied(rows, k) {
      var i :| 0 <= i < |rows| && IsDoingOf(rows[i], k);
      assert StaffRow(rows[i]);
      assert IsDoingOf(rows'[i], k);
    }
    if WasApplied(rows', k) {
      var i :| 0 <= i < |rows'| && IsDoingOf(rows'[i], k);
      assert i != t;
      assert IsDoingOf(rows[i], k);
    }
  }

  lemma OtherCarryingStays(rows: seq<Txn>, rows': seq<Txn>, t: nat, id: string,
                           p: Posting, k: string, i: nat, b: Option<int>)
    requires BecomesDoing(rows, rows', t, id) && CarriesOut(rows, p, k, i, b)
    ensures CarriesOut(rows', p, k, i, b)
  {
    assert StaffRow(rows[i]);
  }

  lemma OtherBackingStays(postings: map<string, Posting>, rows: seq<Txn>, rows': seq<Txn>, t: nat, id: string, i: nat)
    requires BecomesDoing(rows, rows', t, id) && i < |rows| && i != t && RowBacked(postings, rows, i)
    ensures RowBacked(postings, rows', i)
  {
    if rows[i].provider.Manual? {
      var k :| k in postings && rows[i].reference == PostingReference(k)
               && CarriesOut(rows, postings[k], k, i, rows[i].balanceAfter);
      OtherCarryingStays(rows, rows', t, id, postings[k], k, i, rows[i].balanceAfter);
    }
    if rows[i].resolvedBy.Some? {
      var k :| k in postings && rows[i].resolvedBy == Some(PostingReference(k)) && postings[k].source == Some(i)
               && CarriesOut(rows, postings[k], k, i, rows[i].balanceAfter);
      OtherCarryingStays(rows, rows', t, id, postings[k], k, i, rows[i].balanceAfter);
    }
  }

  lemma DoingIsBacked(postings: map<string, Posting>, rows': seq<Txn>, t: nat, id: string)
    requires id in postings && t < |rows'| && IsDoingOf(rows'[t], id)
    requires rows'[t].provider.Manual? <==> rows'[t].resolvedBy.None?
    requires CarriesOut(rows', postings[id], id, t, rows'[t].balanceAfter)
    ensures RowBacked(postings, rows', t)
  {
  }

  lemma OtherPostingStays(o: Office, o': Office, t: nat, id: string, k: string)
    requires BecomesDoing(o.pay.db.rows, o'.pay.db.rows, t, id) && o'.postings == o.postings
    requires PayGrows(o.pay, o'.pay) && k in o.postings && PostingOk(o, k)
    requires k == id ==> WasSent(o.postings[id].status)
    ensures PostingOk(o', k)
  {
    var p := o.postings[k];
    if k != id { OtherDoingsStay(o.pay.db.rows, o'.pay.db.rows, t, id, k); }
    if p.status.POSTED? {
      OtherCarryingStays(o.pay.db.rows, o'.pay.db.rows, t, id, p, k, p.transactionId.value, p.balanceAfter);
    }
  }

  lemma OtherFlightStays(o: Office, o': Office, t: nat, id: string, f: Flight)
    requires BecomesDoing(o.pay.db.rows, o'.pay.db.rows, t, id) && o'.postings == o.postings
    requires FlightOk(o, f)
    ensures FlightOk(o', f)
  {
    if f.reply.Some? && f.reply.value.Applied? {
      OtherCarryingStays(o.pay.db.rows, o'.pay.db.rows, t, id, o.postings[f.posting], f.posting,
                         f.reply.value.transactionId, f.reply.value.balanceAfter);
    }
  }

  lemma DoingKeepsConsole(o: Office, o': Office, a: nat, t: nat)
    requires ConsoleOk(o) && o' == o.(pay := o'.pay) && PayGrows(o.pay, o'.pay)
    requires a in o.flights && o.flights[a].reply.None?
    requires var id := o.flights[a].posting;
             id in o.postings && BecomesDoing(o.pay.db.rows, o'.pay.db.rows, t, id)
             && CarriesOut(o'.pay.db.rows, o.postings[id], id, t, o'.pay.db.rows[t].balanceAfter)
    ensures ConsoleOk(o')
  {
    var id := o.flights[a].posting;
    assert FlightOk(o, o.flights[a]);
    forall k | k in o'.postings ensures PostingOk(o', k) {
      OtherPostingStays(o, o', t, id, k);
    }
    forall i: nat | i < |o'.pay.db.rows| ensures RowBacked(o'.postings, o'.pay.db.rows, i) {
      if i == t {
        DoingIsBacked(o.postings, o'.pay.db.rows, t, id);
      } else {
        OtherBackingStays(o.postings, o.pay.db.rows, o'.pay.db.rows, t, id, i);
      }
    }
    forall b | b in o'.flights ensures FlightOk(o', o'.flights[b]) {
      OtherFlightStays(o, o', t, id, o.flights[b]);
    }
  }
}
