/** The subscription tracker: a list of recurring bills kept in memory, each
    open or paid, with an overdue flag that every render pass recomputes from
    the due date and the current day, and a history of the days on which the
    bill was found newly overdue. */
module Subscriptions {
  import opened Wrappers
  import opened Lists

  /** Record ids. The page compares them with loose equality, between the
      number `Date.now()` gave and the text the edit form holds; that is
      equality of their numeric values. */
  type Id = int

  /** A calendar day as a day number (local midnight of that day). */
  type Day = int

  /** The `YYYY-MM-DD` text of a day that the delay history records. */
  type DateKey = string

  /** The stored status; the page only ever writes these two. */
  datatype Status = Open | Paid

  datatype Subscription = Subscription(
    id: Id,
    name: string,
    value: real,
    dueDate: Day,
    paymentMethod: string,
    notes: string,
    status: Status,
    delayHistory: seq<DateKey>,
    isOverdue: bool)

  /** What the subscription form submits. */
  datatype Form = Form(name: string, value: real, dueDate: Day, paymentMethod: string, notes: string)

  function IdOf(x: Subscription): Id { x.id }
  function ValueOf(x: Subscription): real { x.value }
  function DueOf(x: Subscription): int { x.dueDate }

  // ---------------------------------------------------------------------
  // Form submission: edit in place or append

  /** The record the form builds. The page builds it without an `isOverdue`
      property, which reads as false until the next pass. */
  function FromForm(id: Id, f: Form, status: Status, history: seq<DateKey>): Subscription
  {
    Subscription(id, f.name, f.value, f.dueDate, f.paymentMethod, f.notes, status, history, false)
  }

  /** Submitting the form with id `id`: the first record with that id is
      replaced at its index, keeping its status and delay history; otherwise a
      new open record with an empty history is appended. */
  function Upsert(items: seq<Subscription>, id: Id, f: Form): (r: seq<Subscription>)
    ensures IndexOf(items, IdOf, id) == -1 ==>
      && |r| == |items| + 1 && r[..|items|] == items
      && r[|items|] == Subscription(id, f.name, f.value, f.dueDate, f.paymentMethod, f.notes, Open, [], false)
    ensures 0 <= IndexOf(items, IdOf, id) ==>
      var k := IndexOf(items, IdOf, id);
      && |r| == |items|
      && r[k].id == id && r[k].name == f.name && r[k].value == f.value && r[k].dueDate == f.dueDate
      && r[k].paymentMethod == f.paymentMethod && r[k].notes == f.notes
      && r[k].status == items[k].status && r[k].delayHistory == items[k].delayHistory
      && !r[k].isOverdue
      && (forall j :: 0 <= j < |items| && j != k ==> r[j] == items[j])
  {
    var k := IndexOf(items, IdOf, id);
    if k >= 0 then items[k := FromForm(id, f, items[k].status, items[k].delayHistory)]
    else items + [FromForm(id, f, Open, [])]
  }

  // ---------------------------------------------------------------------
  // Status change

  /** `updateStatus`: the first record with the id takes the new status; an
      absent id changes nothing. */
  function WithStatus(items: seq<Subscription>, id: Id, s: Status): (r: seq<Subscription>)
    ensures |r| == |items|
    ensures IndexOf(items, IdOf, id) == -1 ==> r == items
    ensures 0 <= IndexOf(items, IdOf, id) ==>
      var k := IndexOf(items, IdOf, id);
      && r[k] == items[k].(status := s)
      && (forall j :: 0 <= j < |items| && j != k ==> r[j] == items[j])
  {
    var k := IndexOf(items, IdOf, id);
    if k < 0 then items else items[k := items[k].(status := s)]
  }

  // ---------------------------------------------------------------------
  // The overdue pass

  /** The condition a pass evaluates for each record. */
  predicate NowOverdue(x: Subscription, today: Day)
  {
    x.dueDate < today && x.status != Paid
  }

  /** The record has just become overdue and today is not yet in its history:
      the pass appends today and asks for the list to be saved. */
  predicate Records(x: Subscription, today: Day, todayKey: DateKey)
  {
    NowOverdue(x, today) && !x.isOverdue && todayKey !in x.delayHistory
  }

  /** One record after a pass: its flag becomes "due before today and not
      paid"; its history gains today's key exactly when the record turns
      overdue and the key is not there yet; nothing else changes. */
  function PassItem(x: Subscription, today: Day, todayKey: DateKey): (r: Subscription)
    ensures r.isOverdue == (x.dueDate < today && x.status != Paid)
    ensures r.delayHistory == if Records(x, today, todayKey) then x.delayHistory + [todayKey] else x.delayHistory
    ensures r.(isOverdue := x.isOverdue, delayHistory := x.delayHistory) == x
  {
    if NowOverdue(x, today) && !x.isOverdue then
      var h := if todayKey in x.delayHistory then x.delayHistory else x.delayHistory + [todayKey];
      x.(isOverdue := true, delayHistory := h)
    else
      x.(isOverdue := NowOverdue(x, today))
  }

  /** The whole list after a pass: each record's flag is recomputed, a history
      grows by at most today's key, and the records keep their positions. */
  function OverduePass(items: seq<Subscription>, today: Day, todayKey: DateKey): (r: seq<Subscription>)
    ensures |r| == |items|
    ensures forall j :: 0 <= j < |items| ==>
      && r[j].isOverdue == (items[j].dueDate < today && items[j].status != Paid)
      && r[j].delayHistory ==
           (if Records(items[j], today, todayKey) then items[j].delayHistory + [todayKey]
            else items[j].delayHistory)
      && r[j].(isOverdue := items[j].isOverdue, delayHistory := items[j].delayHistory) == items[j]
    ensures forall j :: 0 <= j < |items| ==> r[j] == PassItem(items[j], today, todayKey)
  {
    seq(|items|, j requires 0 <= j < |items| => PassItem(items[j], today, todayKey))
  }

  /** Whether a pass appended to some history (its `shouldSave`). */
  predicate AnyRecorded(items: seq<Subscription>, today: Day, todayKey: DateKey)
  {
    exists j :: 0 <= j < |items| && Records(items[j], today, todayKey)
  }

  predicate NoDuplicates(h: seq<DateKey>)
  {
    forall i, j :: 0 <= i < j < |h| ==> h[i] != h[j]
  }

  predicate HistoriesDistinct(items: seq<Subscription>)
  {
    forall j :: 0 <= j < |items| ==> NoDuplicates(items[j].delayHistory)
  }

  /** The `includes` guard keeps every history free of duplicates. */
  lemma PassKeepsHistoriesDistinct(items: seq<Subscription>, today: Day, todayKey: DateKey)
    requires HistoriesDistinct(items)
    ensures HistoriesDistinct(OverduePass(items, today, todayKey))
  {
    var r := OverduePass(items, today, todayKey);
    forall j | 0 <= j < |items|
      ensures NoDuplicates(r[j].delayHistory)
    {
      var h := items[j].delayHistory;
      if Records(items[j], today, todayKey) {
        var h' := h + [todayKey];
        assert r[j].delayHistory == h';
        forall a, b | 0 <= a < b < |h'| ensures h'[a] != h'[b] {
          if b == |h| {
            assert h'[a] == h[a] && h'[b] == todayKey;
            assert h[a] in h;
          }
        }
      }
    }
  }

  /** A second pass on the same day changes nothing and records nothing. */
  lemma PassIdempotent(items: seq<Subscription>, today: Day, todayKey: DateKey)
    ensures var r := OverduePass(items, today, todayKey);
      OverduePass(r, today, todayKey) == r && !AnyRecorded(r, today, todayKey)
  {
    var r := OverduePass(items, today, todayKey);
    var r2 := OverduePass(r, today, todayKey);
    assert forall j :: 0 <= j < |r| ==> r2[j] == r[j];
  }

  /** A bill due yesterday and still open turns overdue with today as its only delay. */
  lemma DueYesterdayScenario(x: Subscription, today: Day, todayKey: DateKey)
    requires x.dueDate == today - 1 && x.status == Open && !x.isOverdue && x.delayHistory == []
    ensures PassItem(x, today, todayKey).isOverdue
    ensures PassItem(x, today, todayKey).delayHistory == [todayKey]
  {
  }

  /** An edit clears the flag, so editing a bill that was already overdue, on
      a later day than its last recorded delay, records that day as a new delay. */
  lemma EditRecordsNewDelay(items: seq<Subscription>, id: Id, f: Form, today: Day, todayKey: DateKey)
    requires 0 <= IndexOf(items, IdOf, id)
    requires var x := items[IndexOf(items, IdOf, id)];
      x.isOverdue && x.status == Open && todayKey !in x.delayHistory
    requires f.dueDate < today
    ensures var k := IndexOf(items, IdOf, id);
      var r := OverduePass(Upsert(items, id, f), today, todayKey);
      r[k].isOverdue && r[k].delayHistory == items[k].delayHistory + [todayKey]
  {
  }

  /** Marking a bill paid and then undoing it, with a pass after each (as
      every save renders), leaves it open, its flag recomputed from its due
      date alone, and at most today's key added to its history. */
  lemma {:induction false} PaidThenUndo(items: seq<Subscription>, id: Id, today: Day, todayKey: DateKey)
    requires 0 <= IndexOf(items, IdOf, id)
    ensures
      var k := IndexOf(items, IdOf, id);
      var s1 := OverduePass(WithStatus(items, id, Paid), today, todayKey);
      var s2 := OverduePass(WithStatus(s1, id, Open), today, todayKey);
      && |s2| == |items|
      && s2[k].status == Open
      && s2[k].isOverdue == (items[k].dueDate < today)
      && s2[k].delayHistory ==
           if items[k].dueDate < today && todayKey !in items[k].delayHistory
           then items[k].delayHistory + [todayKey] else items[k].delayHistory
  {
    var k := IndexOf(items, IdOf, id);
    var s0 := WithStatus(items, id, Paid);
    var s1 := OverduePass(s0, today, todayKey);
    assert forall j :: 0 <= j < |s0| ==> IdOf(s0[j]) == IdOf(items[j]);
    assert forall j :: 0 <= j < |s1| ==> IdOf(s1[j]) == IdOf(s0[j]);
    IndexOfSameKeys(items, s0, IdOf, IdOf, id);
    IndexOfSameKeys(s0, s1, IdOf, IdOf, id);
    assert !s1[k].isOverdue && s1[k].status == Paid;
  }

  // ---------------------------------------------------------------------
  // Filters, ordering and the summary

  predicate CountsOpen(x: Subscription) { x.status == Open && !x.isOverdue }
  predicate CountsOverdue(x: Subscription) { x.isOverdue && x.status != Paid }
  predicate CountsPaid(x: Subscription) { x.status == Paid }

  /** Whether the list shows a record under the filter button's value. */
  predicate Shown(filter: string, x: Subscription)
  {
    if filter == "all" then true
    else if filter == "paid" then CountsPaid(x)
    else if filter == "overdue" then CountsOverdue(x)
    else if filter == "open" then CountsOpen(x)
    else false
  }

  function ShownBy(filter: string): Subscription -> bool
  {
    x => Shown(filter, x)
  }

  /** The rows of the list: the records the filter admits, by ascending due date. */
  function Visible(items: seq<Subscription>, filter: string): (rows: seq<Subscription>)
    ensures SortedBy(rows, DueOf)
    ensures multiset(rows) == multiset(Filter(items, ShownBy(filter)))
  {
    SortBy(Filter(items, ShownBy(filter)), DueOf)
  }

  /** The rows are exactly the admitted records: every row is admitted and
      comes from the list, and every admitted record is a row. */
  lemma VisibleRows(items: seq<Subscription>, filter: string)
    ensures forall j :: 0 <= j < |Visible(items, filter)| ==> Shown(filter, Visible(items, filter)[j])
    ensures forall j :: 0 <= j < |items| && Shown(filter, items[j]) ==> items[j] in Visible(items, filter)
    ensures multiset(Visible(items, filter)) <= multiset(items)
    ensures filter == "all" ==> multiset(Visible(items, filter)) == multiset(items)
  {
    var f, v := Filter(items, ShownBy(filter)), Visible(items, filter);
    forall j | 0 <= j < |v|
      ensures Shown(filter, v[j])
    {
      assert v[j] in multiset(f);
      var i :| 0 <= i < |f| && f[i] == v[j];
      assert ShownBy(filter)(f[i]);
    }
    FilterKeepsPassing(items, ShownBy(filter));
    forall j | 0 <= j < |items| && Shown(filter, items[j])
      ensures items[j] in v
    {
      assert ShownBy(filter)(items[j]);
      assert items[j] in multiset(f);
    }
    if filter == "all" {
      FilterKeepsAll(items, ShownBy(filter));
    }
  }

  /** A filter value the page does not know shows no rows. */
  lemma UnknownFilterShowsNothing(items: seq<Subscription>, filter: string)
    requires filter != "all" && filter != "paid" && filter != "overdue" && filter != "open"
    ensures Visible(items, filter) == []
  {
    FilterKeepsNone(items, ShownBy(filter));
  }

  /** Every record falls under exactly one of the open, overdue and paid buttons. */
  lemma ExactlyOneButton(x: Subscription)
    ensures (if Shown("open", x) then 1 else 0) + (if Shown("overdue", x) then 1 else 0)
          + (if Shown("paid", x) then 1 else 0) == 1
  {
  }

  datatype Summary = Summary(totalOpen: real, totalOverdue: real, totalPaid: real)

  /** What a render puts on screen: the rows under the filter and the summary. */
  datatype View = View(rows: seq<Subscription>, summary: Summary)

  /** `updateSummary`: the values summed per group. The three totals account
      for every record's value exactly once. */
  function Summarize(items: seq<Subscription>): (t: Summary)
    ensures t.totalOpen + t.totalOverdue + t.totalPaid == Sum(items, ValueOf)
  {
    SumPartition3(items, ValueOf, CountsOpen, CountsOverdue, CountsPaid);
    Summary(
      Sum(Filter(items, CountsOpen), ValueOf),
      Sum(Filter(items, CountsOverdue), ValueOf),
      Sum(Filter(items, CountsPaid), ValueOf))
  }

  // ---------------------------------------------------------------------
  // Due-date display

  /** `s.split(sep)`: the pieces between separators, always at least one. */
  function Split(s: string, sep: char): (parts: seq<string>)
    ensures |parts| >= 1
  {
    if s == [] then [[]]
    else
      var rest := Split(s[1..], sep);
      if s[0] == sep then [[]] + rest else [[s[0]] + rest[0]] + rest[1..]
  }

  /** A missing destructured piece prints as "undefined". */
  function Piece(parts: seq<string>, i: nat): string
  {
    if i < |parts| then parts[i] else "undefined"
  }

  /** The `YYYY-MM-DD` due date shown as `DD/MM/YYYY`; a text without a dash
      is one piece, shown last after two "undefined" pieces. */
  function FormatDueDate(s: string): (r: string)
    ensures '-' !in s ==> r == "undefined/undefined/" + s
  {
    var parts := Split(s, '-');
    assert '-' !in s ==> parts == [s] by {
      if '-' !in s { SplitPlain(s, '-'); }
    }
    Piece(parts, 2) + "/" + Piece(parts, 1) + "/" + Piece(parts, 0)
  }

  lemma {:induction false} SplitPlain(a: string, sep: char)
    requires sep !in a
    ensures Split(a, sep) == [a]
  {
    if a != [] {
      SplitPlain(a[1..], sep);
      assert a == [a[0]] + a[1..];
    }
  }

  lemma {:induction false} SplitFirst(a: string, sep: char, b: string)
    requires sep !in a
    ensures Split(a + [sep] + b, sep) == [a] + Split(b, sep)
  {
    var s := a + [sep] + b;
    if a == [] {
      assert s[1..] == b;
    } else {
      assert s[1..] == a[1..] + [sep] + b;
      SplitFirst(a[1..], sep, b);
      assert a == [a[0]] + a[1..];
    }
  }

  /** A well-formed date text comes out with its day, month and year reordered. */
  lemma FormatDueDateReorders(year: string, month: string, day: string)
    requires '-' !in year && '-' !in month && '-' !in day
    ensures FormatDueDate(year + "-" + month + "-" + day) == day + "/" + month + "/" + year
  {
    var s := year + "-" + month + "-" + day;
    assert s == year + ['-'] + (month + ['-'] + day);
    SplitFirst(year, '-', month + ['-'] + day);
    SplitFirst(month, '-', day);
    SplitPlain(day, '-');
  }

  // ---------------------------------------------------------------------
  // The tracker's state

  /** The page's in-memory list (`items`), updated in place by its handlers. */
  class Tracker {
    var items: seq<Subscription>

    /** Start-up: the list read from storage (empty when nothing is stored),
        after the initial `renderItems` has run its overdue pass on it. */
    constructor (stored: seq<Subscription>, today: Day, todayKey: DateKey)
      ensures items == OverduePass(stored, today, todayKey)
      ensures HistoriesDistinct(stored) ==> HistoriesDistinct(items)
    {
      items := OverduePass(stored, today, todayKey);
      if HistoriesDistinct(stored) {
        PassKeepsHistoriesDistinct(stored, today, todayKey);
      }
    }

    /** The form's submit handler. `formId` is the hidden id field (None when
        empty); `freshId` stands for `Date.now()`. Its `saveItems` re-renders
        the list under `filter`, so the overdue pass runs on the upserted list. */
    method Submit(formId: Option<Id>, freshId: Id, f: Form, filter: string, today: Day, todayKey: DateKey)
      returns (rows: seq<Subscription>, summary: Summary, shouldSave: bool)
      modifies this
      ensures var upserted := Upsert(old(items), formId.GetOr(freshId), f);
        && items == OverduePass(upserted, today, todayKey)
        && shouldSave == AnyRecorded(upserted, today, todayKey)
      ensures summary == Summarize(items) && rows == Visible(items, filter)
      ensures HistoriesDistinct(old(items)) ==> HistoriesDistinct(items)
    {
      var id := formId.GetOr(freshId);
      var k := IndexOf(items, IdOf, id);
      if k > -1 {
        items := items[k := FromForm(id, f, items[k].status, items[k].delayHistory)];
      } else {
        items := items + [FromForm(id, f, Open, [])];
      }
      assert items == Upsert(old(items), id, f);
      if HistoriesDistinct(old(items)) {
        assert HistoriesDistinct(items);
        PassKeepsHistoriesDistinct(items, today, todayKey);
      }
      rows, summary, shouldSave := Render(filter, today, todayKey);
    }

    /** The confirmed delete button; its `saveItems` re-renders the list. */
    method Delete(id: Id, filter: string, today: Day, todayKey: DateKey)
      returns (rows: seq<Subscription>, summary: Summary, shouldSave: bool)
      modifies this
      ensures var kept := RemoveKey(old(items), IdOf, id);
        && items == OverduePass(kept, today, todayKey)
        && shouldSave == AnyRecorded(kept, today, todayKey)
      ensures summary == Summarize(items) && rows == Visible(items, filter)
      ensures HistoriesDistinct(old(items)) ==> HistoriesDistinct(items)
    {
      items := RemoveKey(items, IdOf, id);
      if HistoriesDistinct(old(items)) {
        forall j | 0 <= j < |items|
          ensures NoDuplicates(items[j].delayHistory)
        {
          assert items[j] in multiset(old(items));
          var k :| 0 <= k < |old(items)| && old(items)[k] == items[j];
        }
        PassKeepsHistoriesDistinct(items, today, todayKey);
      }
      rows, summary, shouldSave := Render(filter, today, todayKey);
    }

    /** `updateStatus`, from the paid and undo buttons. Only a found record
        is changed and saved, and only then is the list re-rendered; `view`
        is None when no record has the id. */
    method UpdateStatus(id: Id, s: Status, filter: string, today: Day, todayKey: DateKey)
      returns (view: Option<View>, shouldSave: bool)
      modifies this
      ensures view.Some? <==> IndexOf(old(items), IdOf, id) >= 0
      ensures view.None? ==> items == old(items) && !shouldSave
      ensures view.Some? ==>
        var updated := WithStatus(old(items), id, s);
        && items == OverduePass(updated, today, todayKey)
        && shouldSave == AnyRecorded(updated, today, todayKey)
        && view.value == View(Visible(items, filter), Summarize(items))
      ensures HistoriesDistinct(old(items)) ==> HistoriesDistinct(items)
    {
      var k := IndexOf(items, IdOf, id);
      if k >= 0 {
        items := items[k := items[k].(status := s)];
        if HistoriesDistinct(items) {
          PassKeepsHistoriesDistinct(items, today, todayKey);
        }
        var rows, summary;
        rows, summary, shouldSave := Render(filter, today, todayKey);
        view := Some(View(rows, summary));
      } else {
        view, shouldSave := None, false;
      }
    }

    /** `checkForOverdue`: one pass over the list, in place. */
    method CheckForOverdue(today: Day, todayKey: DateKey) returns (shouldSave: bool)
      modifies this
      ensures items == OverduePass(old(items), today, todayKey)
      ensures shouldSave == AnyRecorded(old(items), today, todayKey)
    {
      shouldSave := false;
      var i := 0;
      while i < |items|
        invariant 0 <= i <= |items| == |old(items)|
        invariant forall j :: 0 <= j < i ==> items[j] == PassItem(old(items)[j], today, todayKey)
        invariant forall j :: i <= j < |items| ==> items[j] == old(items)[j]
        invariant shouldSave == exists j :: 0 <= j < i && Records(old(items)[j], today, todayKey)
      {
        var item := items[i];
        var isNowOverdue := item.dueDate < today && item.status != Paid;
        if isNowOverdue && !item.isOverdue {
          item := item.(isOverdue := true);
          if todayKey !in item.delayHistory {
            item := item.(delayHistory := item.delayHistory + [todayKey]);
            shouldSave := true;
          }
        } else {
          item := item.(isOverdue := isNowOverdue);
        }
        items := items[i := item];
        i := i + 1;
      }
    }

    /** `renderItems`: a pass, then the summary and the rows under `filter`. */
    method Render(filter: string, today: Day, todayKey: DateKey)
      returns (rows: seq<Subscription>, summary: Summary, shouldSave: bool)
      modifies this
      ensures items == OverduePass(old(items), today, todayKey)
      ensures shouldSave == AnyRecorded(old(items), today, todayKey)
      ensures summary == Summarize(items) && rows == Visible(items, filter)
    {
      shouldSave := CheckForOverdue(today, todayKey);
      summary := Summarize(items);
      rows := Visible(items, filter);
    }
  }
}
