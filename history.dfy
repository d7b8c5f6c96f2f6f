/**
  The history ledger: recent conversions, newest first, at most MaxHistory
  long. Recording the same (amount, from, to) as the newest entry is a no-op.
 */
module History {

  const MaxHistory: nat := 10

  /** One logged conversion; `id` and `date` are the clock readings taken when it was made. */
  datatype Entry = Entry(id: int, amount: real, from: string, to: string, result: real, rate: real, date: string)

  /** The newest entry already records this (amount, from, to). */
  predicate RepeatsHead(history: seq<Entry>, e: Entry)
  {
    |history| > 0 && history[0].amount == e.amount && history[0].from == e.from && history[0].to == e.to
  }

  /** `pop` once if `unshift` made the list longer than the cap. */
  function Trimmed(history: seq<Entry>): seq<Entry>
  {
    if |history| > MaxHistory then history[..|history| - 1] else history
  }

  /** The ledger after `addToHistory` with entry `e`. */
  function Recorded(history: seq<Entry>, e: Entry): (r: seq<Entry>)
    ensures RepeatsHead(history, e) ==> r == history
    ensures !RepeatsHead(history, e) ==>
              |r| > 0 && r[0] == e &&
              r[1..] == if |history| >= MaxHistory then history[..|history| - 1] else history
  {
    if RepeatsHead(history, e) then history else Trimmed([e] + history)
  }

  /** The cap is kept, and a ledger over the cap never grows. */
  lemma RecordedLength(history: seq<Entry>, e: Entry)
    ensures |history| <= MaxHistory ==> |Recorded(history, e)| <= MaxHistory
    ensures |Recorded(history, e)| <= |history| + 1
    ensures |history| >= MaxHistory ==> |Recorded(history, e)| == |history|
  {
  }

  /** Every older entry keeps its place, shifted by one; only the oldest can fall off. */
  lemma RecordedShifts(history: seq<Entry>, e: Entry, k: nat)
    requires !RepeatsHead(history, e)
    requires k < |history| && (k < MaxHistory - 1 || k < |history| - 1)
    ensures k + 1 < |Recorded(history, e)| && Recorded(history, e)[k + 1] == history[k]
  {
  }

  /** Recording the same conversion twice in a row leaves one entry for it. */
  lemma RecordedTwice(history: seq<Entry>, e: Entry, e': Entry)
    requires e'.amount == e.amount && e'.from == e.from && e'.to == e.to
    ensures Recorded(Recorded(history, e), e') == Recorded(history, e)
  {
  }

  /** The ledger after recording each of `es` in turn. */
  function RecordedAll(history: seq<Entry>, es: seq<Entry>): seq<Entry>
    decreases |es|
  {
    if |es| == 0 then history else RecordedAll(Recorded(history, es[0]), es[1..])
  }

  /** No sequence of conversions takes a ledger within the cap over it. */
  lemma {:induction false} RecordedAllWithinCap(history: seq<Entry>, es: seq<Entry>)
    requires |history| <= MaxHistory
    ensures |RecordedAll(history, es)| <= MaxHistory
    decreases |es|
  {
    if |es| > 0 {
      RecordedLength(history, es[0]);
      RecordedAllWithinCap(Recorded(history, es[0]), es[1..]);
    }
  }

  /** After any non-empty sequence of conversions, the newest entry is for the last one made. */
  lemma {:induction false} RecordedAllHead(history: seq<Entry>, es: seq<Entry>)
    requires |es| > 0
    ensures var r := RecordedAll(history, es);
            |r| > 0 && r[0].amount == es[|es| - 1].amount &&
            r[0].from == es[|es| - 1].from && r[0].to == es[|es| - 1].to
    decreases |es|
  {
    if |es| > 1 {
      RecordedAllHead(Recorded(history, es[0]), es[1..]);
    }
  }
}
