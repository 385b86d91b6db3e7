/**
 * The per-item dispatch loop: each item's address and body are looked up;
 * an item with both present and non-empty gets one send attempt, any other
 * item is skipped; a failed send is reported and the loop goes on.
 *
 * The email provider is an oracle `sendOk`: `sendOk(k)` is whether the k-th
 * send attempt of the run (counting from 0) succeeded. An exception from the
 * provider client's send is a `false` answer, as the send wrapper catches it.
 */
module Dispatch {
  import opened Wrappers
  import opened Board
  import opened Filtering

  /** The fixed subject line of every email. */
  const Subject: string := "Your Email from Monday Board"

  /** One email as handed to the provider. */
  datatype Message = Message(from: string, to: string, subject: string, body: string)

  /** What the run reports for one item. */
  datatype Outcome =
    | Sent(name: string, to: string, content: string)
    | Failed(name: string, to: string, content: string)
    | Skipped(name: string)

  /** Python truthiness of an optional string: present and non-empty. */
  predicate Truthy(v: Option<string>) {
    v.Some? && v.value != ""
  }

  /** An item gets a send attempt exactly when both its looked-up fields are truthy. */
  predicate Eligible(item: Item) {
    Truthy(EmailOf(item)) && Truthy(ContentOf(item))
  }

  /** The email attempts for an eligible item. */
  function MessageFor(from: string, item: Item): (m: Message)
    requires Eligible(item)
    ensures m.from == from && m.subject == Subject
    ensures Some(m.to) == EmailOf(item) && Some(m.body) == ContentOf(item)
    ensures m.to != "" && m.body != ""
  {
    Message(from, EmailOf(item).value, Subject, ContentOf(item).value)
  }

  /**
   * The outcome of one item, given the provider's answer to its send attempt
   * (the answer is not consulted when the item is skipped).
   */
  function Decide(item: Item, delivered: bool): (o: Outcome)
    ensures o.name == item.name
    ensures o.Skipped? <==> !Eligible(item)
    ensures !o.Skipped? ==> Some(o.to) == EmailOf(item) && Some(o.content) == ContentOf(item)
    ensures !o.Skipped? ==> (o.Sent? <==> delivered)
  {
    if Eligible(item) then
      if delivered then Sent(item.name, EmailOf(item).value, ContentOf(item).value)
      else Failed(item.name, EmailOf(item).value, ContentOf(item).value)
    else Skipped(item.name)
  }

  /**
   * Only the first column value with the email id counts: when its text is
   * empty the item is skipped, even if a later one with that id has an address.
   */
  lemma EmptyFirstEmailSkips(item: Item, i: nat)
    requires i < |item.columnValues| && item.columnValues[i].id == EmailColumn
    requires forall j :: 0 <= j < i ==> item.columnValues[j].id != EmailColumn
    requires item.columnValues[i].text == ""
    ensures !Eligible(item)
  {
  }

  /** The same holds for the content column. */
  lemma EmptyFirstContentSkips(item: Item, i: nat)
    requires i < |item.columnValues| && item.columnValues[i].id == ContentColumn
    requires forall j :: 0 <= j < i ==> item.columnValues[j].id != ContentColumn
    requires item.columnValues[i].text == ""
    ensures !Eligible(item)
  {
  }

  /** The positions of the eligible items, in increasing order. */
  function EligiblePositions(items: seq<Item>): seq<nat>
  {
    Positions(items, Eligible)
  }

  /** The emails attempts for `items`, in item order: one per eligible item. */
  function Attempts(from: string, items: seq<Item>): (attempts: seq<Message>)
    ensures |attempts| == |EligiblePositions(items)| <= |items|
  {
    if items == [] then []
    else
      var n := |items| - 1;
      Attempts(from, items[..n]) + (if Eligible(items[n]) then [MessageFor(from, items[n])] else [])
  }

  /**
   * The outcomes of the loop over `items`, one per item and in item order;
   * the item at position i, if eligible, is the |EligiblePositions(items[..i])|-th attempt.
   */
  function Plan(items: seq<Item>, sendOk: nat -> bool): (outcomes: seq<Outcome>)
    ensures |outcomes| == |items|
  {
    if items == [] then []
    else
      var n := |items| - 1;
      Plan(items[..n], sendOk) + [Decide(items[n], sendOk(|EligiblePositions(items[..n])|))]
  }

  /** The emails a sequence of outcomes reports as attempted, attempts or failed, in order. */
  function AttemptedMessages(from: string, outcomes: seq<Outcome>): seq<Message>
  {
    if outcomes == [] then []
    else
      var n := |outcomes| - 1;
      AttemptedMessages(from, outcomes[..n])
        + (if outcomes[n].Skipped? then [] else [Message(from, outcomes[n].to, Subject, outcomes[n].content)])
  }

  /**
   * Each item's outcome is decided by that item alone and by the provider's
   * answer to its own attempt: a skip, a failure or a success on an earlier
   * item changes nothing about a later one, and every item is processed.
   */
  lemma {:induction false} PlanAt(items: seq<Item>, sendOk: nat -> bool, i: nat)
    requires i < |items|
    ensures Plan(items, sendOk)[i] == Decide(items[i], sendOk(|EligiblePositions(items[..i])|))
  {
    var n := |items| - 1;
    if i < n {
      PlanAt(items[..n], sendOk, i);
      assert items[..n][..i] == items[..i];
    }
  }

  /**
   * The emails attempted do not depend on the provider's answers: whatever
   * fails, the attempts are the same, one per eligible item in item order.
   */
  lemma {:induction false} AttemptsIndependentOfReplies(from: string, items: seq<Item>, sendOk: nat -> bool)
    ensures AttemptedMessages(from, Plan(items, sendOk)) == Attempts(from, items)
  {
    if items != [] {
      var n := |items| - 1;
      AttemptsIndependentOfReplies(from, items[..n], sendOk);
      var plan := Plan(items, sendOk);
      assert plan[..n] == Plan(items[..n], sendOk);
    }
  }

  /** The k-th attempt is the email of the item at the k-th eligible position. */
  lemma {:induction false} AttemptsAtPositions(from: string, items: seq<Item>)
    ensures var attempts, pos := Attempts(from, items), EligiblePositions(items);
      forall k :: 0 <= k < |pos| ==> pos[k] < |items| && Eligible(items[pos[k]]) && attempts[k] == MessageFor(from, items[pos[k]])
  {
    PositionsExact(items, Eligible);
    if items != [] {
      var n := |items| - 1;
      var init := items[..n];
      AttemptsAtPositions(from, init);
      PositionsExact(init, Eligible);
      var pos0 := EligiblePositions(init);
      forall k | 0 <= k < |pos0|
        ensures items[pos0[k]] == init[pos0[k]]
      {
      }
    }
  }

  /**
   * Sends happen in item order, each with its own item's address and body,
   * and their number is the number of eligible items: `Attempts` is the
   * filter of the items by eligibility, mapped to their emails.
   */
  lemma {:induction false} AttemptsAreOrderedFilter(from: string, items: seq<Item>)
    ensures var attempts, pos := Attempts(from, items), EligiblePositions(items);
      && |attempts| == |pos|
      && (forall k :: 0 <= k < |pos| ==> pos[k] < |items| && Eligible(items[pos[k]]) && attempts[k] == MessageFor(from, items[pos[k]]))
      && (forall k, l :: 0 <= k < l < |pos| ==> pos[k] < pos[l])
      && (forall i :: 0 <= i < |items| ==> (i in pos <==> Eligible(items[i])))
  {
    PositionsExact(items, Eligible);
    AttemptsAtPositions(from, items);
  }

  /**
   * A two-item board: Ann has an address and a body, Bo's address is empty.
   * Ann gets the one email and Bo is skipped, whatever the provider answers.
   */
  lemma {:induction false} AnnSentBoSkipped(from: string, sendOk: nat -> bool)
    ensures var items := [
        Item("Ann", [ColumnValue(EmailColumn, "ann@x.com"), ColumnValue(ContentColumn, "Hi Ann")]),
        Item("Bo", [ColumnValue(EmailColumn, ""), ColumnValue(ContentColumn, "Hi Bo")])];
      && Attempts(from, items) == [Message(from, "ann@x.com", Subject, "Hi Ann")]
      && Plan(items, sendOk)[1] == Skipped("Bo")
  {
    var ann := Item("Ann", [ColumnValue(EmailColumn, "ann@x.com"), ColumnValue(ContentColumn, "Hi Ann")]);
    var bo := Item("Bo", [ColumnValue(EmailColumn, ""), ColumnValue(ContentColumn, "Hi Bo")]);
    FirstMatchDecides(ann.columnValues, EmailColumn, 0);
    FirstMatchDecides(ann.columnValues, ContentColumn, 1);
    EmptyFirstEmailSkips(bo, 0);
    var items := [ann, bo];
    assert items[..1] == [ann] && [ann][..0] == [];
    PlanAt(items, sendOk, 1);
  }

  /**
   * The loop over the items: looks up both fields, sends when both are
   * truthy, records the provider's answer and carries on regardless.
   */
  method DispatchAll(from: string, items: seq<Item>, sendOk: nat -> bool) returns (outcomes: seq<Outcome>, attempted: seq<Message>)
    ensures outcomes == Plan(items, sendOk)
    ensures attempted == Attempts(from, items)
  {
    outcomes, attempted := [], [];
    var i := 0;
    while i < |items|
      invariant 0 <= i <= |items|
      invariant outcomes == Plan(items[..i], sendOk)
      invariant attempted == Attempts(from, items[..i])
    {
      var item := items[i];
      var email := FirstText(item.columnValues, EmailColumn);
      var content := FirstText(item.columnValues, ContentColumn);
      assert items[..i + 1][..i] == items[..i];
      if email.Some? && email.value != "" && content.Some? && content.value != "" {
        var delivered := sendOk(|attempted|);
        attempted := attempted + [Message(from, email.value, Subject, content.value)];
        if delivered {
          outcomes := outcomes + [Sent(item.name, email.value, content.value)];
        } else {
          outcomes := outcomes + [Failed(item.name, email.value, content.value)];
        }
      } else {
        outcomes := outcomes + [Skipped(item.name)];
      }
      i := i + 1;
    }
    assert items[..|items|] == items;
  }
}
