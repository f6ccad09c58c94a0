// The broadcast worker: pages through a customer table that others keep
// changing, by the id of the last row it saw.
module Broadcast {
  import opened Prelude

  // Ids are 128-bit; the cursor starts at the nil id.
  const ID_LIMIT := 0x1_0000_0000_0000_0000_0000_0000_0000_0000
  const BATCH := 500

  type Id = i: int | 0 <= i < ID_LIMIT

  datatype Customer = Customer(id: Id, active: bool, email: Option<string>)

  // One version of the table, in primary-key order.
  type Table = t: seq<Customer> | Sorted(t)

  predicate Sorted(t: seq<Customer>) {
    forall i, k | 0 <= i < k < |t| :: t[i].id < t[k].id
  }

  datatype Audience = Everyone | Chosen(ids: set<Id>)

  datatype Job = Job(push: bool, email: bool, audience: Audience)

  predicate Wanted(c: Customer, audience: Audience, after: Id) {
    c.active && c.id > after && (audience.Everyone? || c.id in audience.ids)
  }

  // WHERE active AND id > after AND in the audience ORDER BY id.
  function Select(t: seq<Customer>, audience: Audience, after: Id): seq<Customer> {
    if |t| == 0 then []
    else (if Wanted(t[0], audience, after) then [t[0]] else []) + Select(t[1..], audience, after)
  }

  // ... LIMIT 500.
  function Page(t: Table, audience: Audience, after: Id): seq<Customer> {
    var all := Select(t, audience, after);
    if |all| <= BATCH then all else all[..BATCH]
  }

  lemma {:induction false} SelectedExactly(t: seq<Customer>, audience: Audience, after: Id)
    ensures forall c :: c in Select(t, audience, after) <==> c in t && Wanted(c, audience, after)
  {
    if |t| == 0 {
    } else {
      SelectedExactly(t[1..], audience, after);
      assert t == [t[0]] + t[1..];
    }
  }

  lemma PrependKeepsSorted(c: Customer, s: seq<Customer>)
    requires Sorted(s) && forall d | d in s :: c.id < d.id
    ensures Sorted([c] + s)
  {
    forall i, k | 0 <= i < k < |[c] + s| ensures ([c] + s)[i].id < ([c] + s)[k].id {
      assert s[k - 1] in s;
    }
  }

  lemma {:induction false} SelectSelects(t: seq<Customer>, audience: Audience, after: Id)
    requires Sorted(t)
    ensures Sorted(Select(t, audience, after))
    ensures forall c :: c in Select(t, audience, after) <==> c in t && Wanted(c, audience, after)
  {
    SelectedExactly(t, audience, after);
    if |t| > 0 {
      SelectSelects(t[1..], audience, after);
      if Wanted(t[0], audience, after) {
        assert forall c | c in t[1..] :: t[0].id < c.id;
        PrependKeepsSorted(t[0], Select(t[1..], audience, after));
      }
    }
  }

  // A page holds the wanted rows up to its last one, and all of them when it is
  // empty.
  lemma PageIsNextRows(t: Table, audience: Audience, after: Id)
    ensures var p := Page(t, audience, after);
            && Sorted(p) && (forall c | c in p :: c in t && Wanted(c, audience, after))
            && (forall c | c in t && Wanted(c, audience, after) :: c in p || (|p| > 0 && c.id > p[|p| - 1].id))
  {
    SelectSelects(t, audience, after);
    var all := Select(t, audience, after);
    var p := Page(t, audience, after);
    forall c | c in t && Wanted(c, audience, after) ensures c in p || (|p| > 0 && c.id > p[|p| - 1].id) {
      var k :| 0 <= k < |all| && all[k] == c;
      if k < |p| { assert p[k] == c; }
    }
  }

  // ---- The messages ----------------------------------------------------------

  datatype Message = Push(id: Id) | Email(id: Id, recipient: string)

  // A push for everyone, an email for those who have an address.
  function MessagesFor(b: Job, u: Customer): seq<Message> {
    (if b.push then [Push(u.id)] else [])
    + (if b.email && u.email.Some? && |u.email.value| > 0 then [Email(u.id, u.email.value)] else [])
  }

  function AllMessages(b: Job, us: seq<Customer>): seq<Message> {
    if |us| == 0 then []
    else AllMessages(b, us[..|us| - 1]) + MessagesFor(b, us[|us| - 1])
  }

  lemma MessagesAppend(b: Job, us: seq<Customer>, u: Customer)
    ensures AllMessages(b, us + [u]) == AllMessages(b, us) + MessagesFor(b, u)
  {
    assert (us + [u])[..|us|] == us;
  }

  // How many pushes go to `id`, and how many emails for `id` to `address`.
  function Pushes(ms: seq<Message>, id: Id): nat {
    if |ms| == 0 then 0 else Pushes(ms[..|ms| - 1], id) + if ms[|ms| - 1] == Push(id) then 1 else 0
  }

  function Emails(ms: seq<Message>, id: Id, address: string): nat {
    if |ms| == 0 then 0 else Emails(ms[..|ms| - 1], id, address) + if ms[|ms| - 1] == Email(id, address) then 1 else 0
  }

  lemma {:induction false} CountsAdd(a: seq<Message>, b: seq<Message>, id: Id, address: string)
    ensures Pushes(a + b, id) == Pushes(a, id) + Pushes(b, id)
    ensures Emails(a + b, id, address) == Emails(a, id, address) + Emails(b, id, address)
  {
    if |b| == 0 {
      assert a + b == a;
    } else {
      CountsAdd(a, b[..|b| - 1], id, address);
      assert (a + b)[..|a + b| - 1] == a + b[..|b| - 1];
    }
  }

  lemma MessagesToOne(b: Job, u: Customer, id: Id, address: string)
    ensures Pushes(MessagesFor(b, u), id) == if b.push && u.id == id then 1 else 0
    ensures Emails(MessagesFor(b, u), id, address) ==
            if b.email && u.id == id && u.email == Some(address) && address != "" then 1 else 0
  {
    var p := if b.push then [Push(u.id)] else [];
    var e := if b.email && u.email.Some? && |u.email.value| > 0 then [Email(u.id, u.email.value)] else [];
    assert MessagesFor(b, u) == p + e;
    CountsAdd(p, e, id, address);
    assert b.push ==> p[..0] == [];
    assert |e| > 0 ==> e[..0] == [];
  }

  lemma {:induction false} NobodyElseIsSent(b: Job, us: seq<Customer>, id: Id, address: string)
    requires forall c | c in us :: c.id != id
    ensures Pushes(AllMessages(b, us), id) == 0 && Emails(AllMessages(b, us), id, address) == 0
  {
    if |us| > 0 {
      NobodyElseIsSent(b, us[..|us| - 1], id, address);
      OneMoreVisit(b, us, id, address);
    }
  }

  // Of customers visited in id order each is sent one push if pushes are on and
  // one email if emails are on and they have an address, to that address; and
  // nothing on a channel that is off.
  lemma {:induction false} EachIsSentOnce(b: Job, us: seq<Customer>, k: nat, address: string)
    requires Sorted(us) && k < |us|
    ensures Pushes(AllMessages(b, us), us[k].id) == if b.push then 1 else 0
    ensures Emails(AllMessages(b, us), us[k].id, address) ==
            if b.email && us[k].email == Some(address) && address != "" then 1 else 0
  {
    var front, last := us[..|us| - 1], us[|us| - 1];
    OneMoreVisit(b, us, us[k].id, address);
    if k == |us| - 1 {
      NobodyElseIsSent(b, front, last.id, address);
    } else {
      EachIsSentOnce(b, front, k, address);
    }
  }

  lemma OneMoreVisit(b: Job, us: seq<Customer>, id: Id, address: string)
    requires |us| > 0
    ensures var front, last := us[..|us| - 1], us[|us| - 1];
            && Pushes(AllMessages(b, us), id)
               == Pushes(AllMessages(b, front), id) + (if b.push && last.id == id then 1 else 0)
            && Emails(AllMessages(b, us), id, address) == Emails(AllMessages(b, front), id, address)
               + (if b.email && last.id == id && last.email == Some(address) && address != "" then 1 else 0)
  {
    MessagesToOne(b, us[|us| - 1], id, address);
    CountsAdd(AllMessages(b, us[..|us| - 1]), MessagesFor(b, us[|us| - 1]), id, address);
  }

  datatype Status = Queued | Processing | Completed | Failed

  // ---- The worker ------------------------------------------------------------

  // The table as each query finds it: any version, none when the query fails.
  type Versions = nat -> Option<Table>

  // What the first `pages` queries read.
  function Visited(b: Job, versions: Versions, pages: nat): seq<Customer>
    decreases pages, 0
  {
    if pages == 0 then []
    else Visited(b, versions, pages - 1) + PageAt(b, versions, pages - 1)
  }

  // The id the k-th query starts after.
  function Cursor(b: Job, versions: Versions, k: nat): Id
    decreases k, 1
  {
    var seen := Visited(b, versions, k);
    if |seen| == 0 then 0 else seen[|seen| - 1].id
  }

  function PageAt(b: Job, versions: Versions, k: nat): seq<Customer>
    decreases k, 2
  {
    if versions(k).None? then [] else Page(versions(k).value, b.audience, Cursor(b, versions, k))
  }

  lemma SortedJoin(s: seq<Customer>, t: seq<Customer>)
    requires Sorted(s) && Sorted(t)
    requires |s| > 0 ==> forall c | c in t :: c.id > s[|s| - 1].id
    ensures Sorted(s + t)
  {
    var u := s + t;
    forall i, k | 0 <= i < k < |u| ensures u[i].id < u[k].id {
      if i < |s| <= k {
        assert t[k - |s|] in t;
      }
    }
  }

  lemma PageAtIsNext(b: Job, versions: Versions, k: nat)
    ensures var p := PageAt(b, versions, k);
            Sorted(p) && forall c | c in p :: c.id > Cursor(b, versions, k)
  {
    if versions(k).Some? {
      PageIsNextRows(versions(k).value, b.audience, Cursor(b, versions, k));
    }
  }

  // The first `pages` queries each found someone.
  predicate AllFound(b: Job, versions: Versions, pages: nat) {
    forall k: nat | k < pages :: versions(k).Some? && |PageAt(b, versions, k)| > 0
  }

  lemma PageAdvances(b: Job, versions: Versions, k: nat)
    requires |PageAt(b, versions, k)| > 0
    ensures AllFound(b, versions, k) ==> AllFound(b, versions, k + 1)
    ensures Visited(b, versions, k + 1) == Visited(b, versions, k) + PageAt(b, versions, k)
    ensures var p := PageAt(b, versions, k);
            Cursor(b, versions, k + 1) == p[|p| - 1].id && p[|p| - 1].id > Cursor(b, versions, k)
  {
    var p := PageAt(b, versions, k);
    PageAtIsNext(b, versions, k);
    assert p[|p| - 1] in p;
  }

  // Whatever happened to the table, the visits are in strictly increasing id
  // order: nobody is visited twice.
  lemma {:induction false} NobodyTwice(b: Job, versions: Versions, pages: nat)
    ensures Sorted(Visited(b, versions, pages))
  {
    if pages > 0 {
      NobodyTwice(b, versions, pages - 1);
      PageAtIsNext(b, versions, pages - 1);
      SortedJoin(Visited(b, versions, pages - 1), PageAt(b, versions, pages - 1));
    }
  }

  lemma {:induction false} VisitsOnlyTheAudience(b: Job, versions: Versions, pages: nat, c: Customer)
    requires c in Visited(b, versions, pages)
    ensures exists k: nat | k < pages :: versions(k).Some? && c in versions(k).value
    ensures c.active && c.id > 0 && (b.audience.Everyone? || c.id in b.audience.ids)
  {
    if pages > 0 {
      if c in Visited(b, versions, pages - 1) {
        VisitsOnlyTheAudience(b, versions, pages - 1, c);
        var k: nat :| k < pages - 1 && versions(k).Some? && c in versions(k).value;
      } else {
        PageIsNextRows(versions(pages - 1).value, b.audience, Cursor(b, versions, pages - 1));
        assert versions(pages - 1).Some? && c in versions(pages - 1).value;
      }
    }
  }

  // What the run sends, visit by visit.
  lemma VisitedAreSentOnce(b: Job, versions: Versions, pages: nat, k: nat, address: string)
    requires k < |Visited(b, versions, pages)|
    ensures var us := Visited(b, versions, pages);
            && Pushes(AllMessages(b, us), us[k].id) == (if b.push then 1 else 0)
            && Emails(AllMessages(b, us), us[k].id, address) ==
               (if b.email && us[k].email == Some(address) && address != "" then 1 else 0)
  {
    NobodyTwice(b, versions, pages);
    EachIsSentOnce(b, Visited(b, versions, pages), k, address);
  }

  // A page is the first 500 of what the query finds, or all.
  lemma PagesHoldFiveHundred(t: Table, audience: Audience, after: Id)
    ensures Page(t, audience, after) <= Select(t, audience, after)
    ensures |Page(t, audience, after)| == 500
            || (|Page(t, audience, after)| < 500 && Page(t, audience, after) == Select(t, audience, after))
  {
  }

  // Is this customer, by id, in the audience and ACTIVE in every version up to
  // the k-th? Other columns may change.
  predicate ActiveThroughout(versions: Versions, pages: nat, id: Id) {
    forall k: nat | k < pages :: ActiveIn(versions(k), id)
  }

  predicate ActiveIn(version: Option<Table>, id: Id) {
    version.Some? && exists c | c in version.value :: c.id == id && c.active
  }

  lemma PageHoldsTheActive(t: Table, audience: Audience, after: Id, id: Id)
    requires ActiveIn(Some(t), id) && id > after && (audience.Everyone? || id in audience.ids)
    ensures var p := Page(t, audience, after);
            |p| > 0 && (id <= p[|p| - 1].id ==> exists c | c in p :: c.id == id)
  {
    var c :| c in t && c.id == id && c.active;
    PageIsNextRows(t, audience, after);
    assert Wanted(c, audience, after);
  }

  // Someone active throughout is visited before the cursor passes them.
  lemma {:induction false} NobodyActiveIsPassed(b: Job, versions: Versions, pages: nat, id: Id)
    requires id > 0 && (b.audience.Everyone? || id in b.audience.ids)
    requires ActiveThroughout(versions, pages, id) && id <= Cursor(b, versions, pages)
    ensures exists c | c in Visited(b, versions, pages) :: c.id == id
  {
    if pages > 0 {
      var before := Visited(b, versions, pages - 1);
      var after := Cursor(b, versions, pages - 1);
      if id <= after {
        NobodyActiveIsPassed(b, versions, pages - 1, id);
        var c :| c in before && c.id == id;
        assert c in Visited(b, versions, pages);
      } else {
        assert ActiveIn(versions(pages - 1), id);
        var page := PageAt(b, versions, pages - 1);
        PageHoldsTheActive(versions(pages - 1).value, b.audience, after, id);
        assert Cursor(b, versions, pages) == page[|page| - 1].id;
        var c :| c in page && c.id == id;
        assert c in Visited(b, versions, pages);
      }
    }
  }

  // When a query comes back empty, everyone in the audience who was ACTIVE in
  // every version queried has been visited, and by NobodyTwice exactly once.
  lemma EveryoneActiveIsVisited(b: Job, versions: Versions, pages: nat, id: Id)
    requires id > 0 && (b.audience.Everyone? || id in b.audience.ids)
    requires ActiveThroughout(versions, pages + 1, id)
    requires |PageAt(b, versions, pages)| == 0
    ensures exists c | c in Visited(b, versions, pages) :: c.id == id
  {
    var after := Cursor(b, versions, pages);
    if id <= after {
      NobodyActiveIsPassed(b, versions, pages, id);
    } else {
      assert ActiveIn(versions(pages), id);
      PageHoldsTheActive(versions(pages).value, b.audience, after, id);
    }
  }

  // The one id the cursor can never reach is its own start.
  lemma NilIdIsNeverVisited(b: Job, versions: Versions, pages: nat)
    ensures forall c | c in Visited(b, versions, pages) :: c.id != 0
  {
    forall c | c in Visited(b, versions, pages) ensures c.id != 0 {
      VisitsOnlyTheAudience(b, versions, pages, c);
    }
  }

  // ---- On a table nobody changes ---------------------------------------------

  lemma {:induction false} CursorBelowTheTableIsNoCursor(t: seq<Customer>, audience: Audience, low: Id, high: Id)
    requires low <= high && forall c | c in t :: c.id > high
    ensures Select(t, audience, low) == Select(t, audience, high)
  {
    if |t| > 0 {
      assert t[0] in t;
      CursorBelowTheTableIsNoCursor(t[1..], audience, low, high);
    }
  }

  lemma SelectedFollowTheFirst(t: seq<Customer>, audience: Audience, after: Id, k: nat)
    requires Sorted(t) && |t| > 0 && k < |Select(t[1..], audience, after)|
    ensures Select(t[1..], audience, after)[k].id > t[0].id
    ensures Select(t[1..], audience, after)[k].id > after
  {
    SelectSelects(t[1..], audience, after);
    assert Select(t[1..], audience, after)[k] in t[1..];
  }

  // Moving the cursor to the n-th selected row drops exactly the first n.
  lemma {:induction false} SelectResumes(t: seq<Customer>, audience: Audience, after: Id, n: nat)
    requires Sorted(t) && n < |Select(t, audience, after)|
    ensures Select(t, audience, Select(t, audience, after)[n].id) == Select(t, audience, after)[n + 1..]
    decreases |t|
  {
    var all := Select(t, audience, after);
    var rest := Select(t[1..], audience, after);
    if !Wanted(t[0], audience, after) {
      assert all == rest;
      SelectedFollowTheFirst(t, audience, after, n);
      SelectResumes(t[1..], audience, after, n);
      SkipsTheFirst(t, audience, all[n].id);
    } else {
      assert all == [t[0]] + rest;
      assert all[n + 1..] == rest[n..];
      if n == 0 {
        ResumesAfterTheFirst(t, audience, after);
      } else {
        SelectedFollowTheFirst(t, audience, after, n - 1);
        SelectResumes(t[1..], audience, after, n - 1);
        SkipsTheFirst(t, audience, all[n].id);
      }
    }
  }

  lemma ResumesAfterTheFirst(t: seq<Customer>, audience: Audience, after: Id)
    requires Sorted(t) && |t| > 0 && Wanted(t[0], audience, after)
    ensures Select(t, audience, t[0].id) == Select(t[1..], audience, after)
  {
    assert forall c | c in t[1..] :: t[0].id < c.id;
    CursorBelowTheTableIsNoCursor(t[1..], audience, after, t[0].id);
    SkipsTheFirst(t, audience, t[0].id);
  }

  lemma SkipsTheFirst(t: seq<Customer>, audience: Audience, after: Id)
    requires |t| > 0 && t[0].id <= after
    ensures Select(t, audience, after) == Select(t[1..], audience, after)
  {
  }

  function After(page: seq<Customer>, after: Id): Id {
    if |page| == 0 then after else page[|page| - 1].id
  }

  lemma PageThenTheRest(t: Table, audience: Audience, after: Id)
    ensures var page := Page(t, audience, after);
            page + Select(t, audience, After(page, after)) == Select(t, audience, after)
  {
    var page := Page(t, audience, after);
    if |page| > 0 { SelectResumes(t, audience, after, |page| - 1); }
  }

  function Fixed(t: Table): Versions { (k: nat) => Some(t) }

  lemma CursorAfterPage(b: Job, versions: Versions, k: nat)
    ensures Cursor(b, versions, k + 1) == After(PageAt(b, versions, k), Cursor(b, versions, k))
  {
  }

  lemma ScanGoesOn(before: seq<Customer>, t: Table, audience: Audience, after: Id)
    requires before + Select(t, audience, after) == Select(t, audience, 0)
    ensures var page := Page(t, audience, after);
            before + page + Select(t, audience, After(page, after)) == Select(t, audience, 0)
  {
    var page := Page(t, audience, after);
    PageThenTheRest(t, audience, after);
    assert before + page + Select(t, audience, After(page, after))
        == before + (page + Select(t, audience, After(page, after)));
  }

  // The pages so far, followed by what the next query would find without its
  // LIMIT, are one scan of the table.
  lemma {:induction false} PagesAreAScan(b: Job, t: Table, pages: nat)
    ensures Visited(b, Fixed(t), pages) + Select(t, b.audience, Cursor(b, Fixed(t), pages)) == Select(t, b.audience, 0)
  {
    if pages > 0 {
      PagesAreAScan(b, t, pages - 1);
      ScanGoesOn(Visited(b, Fixed(t), pages - 1), t, b.audience, Cursor(b, Fixed(t), pages - 1));
      CursorAfterPage(b, Fixed(t), pages - 1);
    }
  }

  // On a fixed table the worker, once a page comes back empty, has visited
  // exactly what one unpaged query returns, in its order.
  lemma FixedTableIsFullyScanned(b: Job, t: Table, pages: nat)
    requires |PageAt(b, Fixed(t), pages)| == 0
    ensures Visited(b, Fixed(t), pages) == Select(t, b.audience, 0)
  {
    PagesAreAScan(b, t, pages);
  }

  // ---- The class -------------------------------------------------------------

  class CommsProcessor {
    var status: Status
    var recipientCount: nat      // columns of the broadcast row
    var publishedCount: nat
    var sent: seq<Message>       // what the message client was given

    constructor ()
      ensures status == Queued && recipientCount == 0 && publishedCount == 0 && sent == []
    {
      status, recipientCount, publishedCount, sent := Queued, 0, 0, [];
    }

    method Publish(b: Job, u: Customer) returns (n: nat)
      modifies this`sent
      ensures sent == old(sent) + MessagesFor(b, u)
      ensures n == |MessagesFor(b, u)|
    {
      n := 0;
      if b.push {
        sent := sent + [Push(u.id)];
        n := n + 1;
      }
      if b.email && u.email.Some? && |u.email.value| > 0 {
        sent := sent + [Email(u.id, u.email.value)];
        n := n + 1;
      }
    }

    // One page, row by row.
    method PublishPage(b: Job, rows: seq<Customer>, ghost before: seq<Customer>) returns (n: nat)
      requires sent == AllMessages(b, before)
      modifies this`sent
      ensures sent == AllMessages(b, before + rows)
      ensures |sent| == |old(sent)| + n
    {
      n := 0;
      var i := 0;
      assert before + rows[..0] == before;
      while i < |rows|
        invariant 0 <= i <= |rows| && |sent| == |old(sent)| + n
        invariant sent == AllMessages(b, before + rows[..i])
      {
        var m := Publish(b, rows[i]);
        n := n + m;
        MessagesAppend(b, before + rows[..i], rows[i]);
        assert before + rows[..i] + [rows[i]] == before + rows[..i + 1];
        i := i + 1;
      }
      assert rows[..i] == rows;
    }

    // The loop ends on any table, changing or not: the cursor only moves up and
    // there are finitely many ids. The counts on the row are those of what was
    // visited and sent when the last page was done; a query that fails leaves
    // them as of the page before it.
    method Process(b: Job, versions: Versions) returns (pages: nat)
      requires status == Queued && sent == []
      modifies this
      ensures status == if versions(pages).None? then Failed else Completed
      ensures status == Completed ==> |PageAt(b, versions, pages)| == 0
      ensures AllFound(b, versions, pages)
      ensures sent == AllMessages(b, Visited(b, versions, pages))
      ensures pages > 0 ==> recipientCount == |Visited(b, versions, pages)| && publishedCount == |sent|
      ensures pages == 0 ==> sent == [] && recipientCount == old(recipientCount)
    {
      status := Processing;
      var after: Id := 0;
      var recipients, published := 0, 0;
      pages := 0;
      while true
        invariant status == Processing
        invariant after == Cursor(b, versions, pages)
        invariant recipients == |Visited(b, versions, pages)| && published == |sent|
        invariant sent == AllMessages(b, Visited(b, versions, pages))
        invariant AllFound(b, versions, pages)
        invariant pages > 0 ==> recipientCount == recipients && publishedCount == published
        invariant pages == 0 ==> recipientCount == old(recipientCount)
        decreases ID_LIMIT - after
      {
        if versions(pages).None? {
          status := Failed;
          return;
        }
        var rows := Page(versions(pages).value, b.audience, after);
        assert rows == PageAt(b, versions, pages);
        if |rows| == 0 {
          break;
        }
        PageAdvances(b, versions, pages);
        var n := PublishPage(b, rows, Visited(b, versions, pages));
        recipients := recipients + |rows|;
        published := published + n;
        after := rows[|rows| - 1].id;
        pages := pages + 1;
        recipientCount, publishedCount := recipients, published;
      }
      status := Completed;
    }
  }
}
