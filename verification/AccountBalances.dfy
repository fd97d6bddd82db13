/** Where an account's balances come from: resets restart both at one amount, an edit writes
    what was asked for or what it read, and nothing else touches the starting balance. */
module AccountBalances {
  import opened Common
  import opened PaperEngine
  import opened PaperLedger
  import opened LedgerInvariant

  // ---------- resets ----------

  /** In every state of any run, a reset leaves no rows and both balances at the new balance
      asked for, or at the starting balance when none is; ids go on from where they were. */
  lemma ResetRestarts(w: World, events: seq<Event>, newBalance: Option<real>)
    ensures var s, s' := Run(w, events).ledger, Run(w, events + [ResetTo(newBalance)]).ledger;
            && (newBalance == None ==> s'.startingBalance == s.startingBalance && s'.cashBalance == s.startingBalance)
            && (newBalance.Some? ==> s'.startingBalance == newBalance.value && s'.cashBalance == newBalance.value)
            && s'.positions == [] && s'.orders == [] && s'.trades == [] && s'.snapshots == []
            && s'.nextId == s.nextId
  {
    hide Run;
    RunMore(w, events, ResetTo(newBalance));
  }

  predicate KeepsOpeningBalance(e: Event) {
    !e.EditWrite? && (e.ResetTo? ==> e.newBalance == None)
  }

  lemma OnlyResetsAndEditsRestart(w: World, e: Event)
    requires KeepsOpeningBalance(e)
    ensures Step(w, e).ledger.startingBalance == w.ledger.startingBalance
  {
    hide ReportedEquity, FillOutcome, MarkWhereId, Lookup, RequestKey, UnrealizedPnL;
  }

  lemma {:induction false} OpeningBalanceStays(w: World, events: seq<Event>)
    requires forall i :: 0 <= i < |events| ==> KeepsOpeningBalance(events[i])
    ensures Run(w, events).ledger.startingBalance == w.ledger.startingBalance
  {
    if events != [] {
      hide Step, KeepsOpeningBalance;
      assert KeepsOpeningBalance(Last(events));
      assert forall i :: 0 <= i < |Init(events)| ==> Init(events)[i] == events[i];
      OpeningBalanceStays(w, Init(events));
      OnlyResetsAndEditsRestart(Run(w, Init(events)), Last(events));
    }
  }

  /** Without edits and without resets to a new balance, each plain reset brings the cash back
      to the balance the account was opened with, however much was won or lost. */
  lemma ResetRestoresOpeningBalance(startingBalance: real, events: seq<Event>)
    requires forall i :: 0 <= i < |events| ==> KeepsOpeningBalance(events[i])
    ensures var s := Run(Start(startingBalance), events + [ResetTo(None)]).ledger;
            s.cashBalance == startingBalance && s.startingBalance == startingBalance
  {
    OpeningBalanceStays(Start(startingBalance), events);
    ResetRestarts(Start(startingBalance), events, None);
  }

  // ---------- edits ----------

  lemma StepKeepsEdits(w: World, e: Event)
    ensures w.edits <= Step(w, e).edits
  {
    hide EditOf, AfterFill, AfterMark, AfterReset, ReportedEquity;
  }

  lemma {:induction false} RunKeepsEdits(w: World, events: seq<Event>)
    ensures w.edits <= Run(w, events).edits
  {
    if events != [] {
      hide Step;
      RunKeepsEdits(w, Init(events));
      StepKeepsEdits(Run(w, Init(events)), Last(events));
    }
  }

  /** A balance edit is refused exactly when cash has left the starting balance or the new
      balance is not positive. Otherwise the edit, whenever it is written, sets both balances
      to the one asked for; an edit of something else sets them to what they were when it was
      read. It touches no other column. */
  lemma EditWritesWhatWasAsked(w: World, newBalance: Option<real>, between: seq<Event>)
    ensures var s, n, read := w.ledger, |w.edits|, Step(w, EditRead(newBalance));
            var refused := newBalance.Some? && (s.cashBalance != s.startingBalance || newBalance.value <= 0.0);
            && (refused <==> |read.edits| == n)
            && (refused ==> read == w)
            && (!refused ==>
                  var at, after := Run(read, between).ledger, Run(read, between + [EditWrite(n)]).ledger;
                  && (newBalance.Some? ==>
                        after == at.(startingBalance := newBalance.value, cashBalance := newBalance.value))
                  && (newBalance == None ==>
                        after == at.(startingBalance := s.startingBalance, cashBalance := s.cashBalance)))
  {
    hide Run;
    var n, read := |w.edits|, Step(w, EditRead(newBalance));
    if |read.edits| == n + 1 {
      RunKeepsEdits(read, between);
      RunMore(read, between, EditWrite(n));
    }
  }

  // ---------- every starting balance was asked for ----------

  predicate Asks(e: Event, balance: real) {
    e == ResetTo(Some(balance)) || (e == EditRead(Some(balance)) && balance > 0.0)
  }

  /** Some event of the run asked for this balance, or the account was opened with it. */
  ghost predicate AskedFor(opening: real, events: seq<Event>, balance: real) {
    balance == opening || exists i :: 0 <= i < |events| && Asks(events[i], balance)
  }

  lemma AskedForMore(opening: real, events: seq<Event>, e: Event, balance: real)
    ensures AskedFor(opening, events + [e], balance) <==> AskedFor(opening, events, balance) || Asks(e, balance)
  {
    hide Asks;
    assert (events + [e])[|events|] == e;
    if exists i :: 0 <= i < |events| && Asks(events[i], balance) {
      var i :| 0 <= i < |events| && Asks(events[i], balance);
      assert (events + [e])[i] == events[i];
    }
  }

  /** What one event may do to the starting balance and to the edits under way. */
  lemma StepStartsAtAsked(w: World, e: Event)
    ensures var w' := Step(w, e);
            && (|| w'.ledger.startingBalance == w.ledger.startingBalance
                || Asks(e, w'.ledger.startingBalance)
                || exists i :: 0 <= i < |w.edits| && w'.ledger.startingBalance == w.edits[i].startingBalance)
            && (|| w'.edits == w.edits
                || (|w'.edits| == |w.edits| + 1 && w.edits <= w'.edits &&
                    (Last(w'.edits).startingBalance == w.ledger.startingBalance || Asks(e, Last(w'.edits).startingBalance))))
  {
    hide ReportedEquity, FillOutcome, MarkWhereId, Lookup, RequestKey, UnrealizedPnL;
  }

  /** At every moment of any run, however edits and resets interleave, the starting balance is
      the opening one or one that a reset or an accepted balance edit asked for; and so is the
      one each edit under way will write. */
  lemma {:induction false} StartingBalanceWasAskedFor(opening: real, events: seq<Event>)
    ensures var w := Run(Start(opening), events);
            && AskedFor(opening, events, w.ledger.startingBalance)
            && forall i :: 0 <= i < |w.edits| ==> AskedFor(opening, events, w.edits[i].startingBalance)
  {
    if events != [] {
      hide Step, Asks, AskedFor;
      var front, e := Init(events), Last(events);
      assert events == front + [e];
      StartingBalanceWasAskedFor(opening, front);
      StepStartsAtAsked(Run(Start(opening), front), e);
      forall balance ensures AskedFor(opening, events, balance) <==> AskedFor(opening, front, balance) || Asks(e, balance) {
        AskedForMore(opening, front, e, balance);
      }
    }
  }

  // ---------- the equity history ----------

  predicate Records(e: Event) {
    e.Snapshot? || (e.PlaceOrder? && !e.req.side.OtherSide? && !e.req.orderType.OtherType?)
  }

  /** In every state of any run: a stored order, filled or rejected, and every snapshot end with
      the equity then reported as the newest entry of the history; a reset empties the history;
      nothing else touches it. */
  lemma HistoryRecordsEquity(w: World, events: seq<Event>, e: Event)
    ensures var s, s' := Run(w, events).ledger, Run(w, events + [e]).ledger;
            && (Records(e) ==> s'.snapshots == s.snapshots + [ReportedEquity(s')])
            && (e.ResetTo? ==> s'.snapshots == [])
            && (!Records(e) && !e.ResetTo? ==> s'.snapshots == s.snapshots)
  {
    hide Run, FillOutcome, MarkWhereId, Lookup, RequestKey, UnrealizedPnL, Upsert, Sum;
    RunMore(w, events, e);
  }
}
