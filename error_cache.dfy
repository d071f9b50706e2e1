/** The per-sink outbound error counters of lib/giver.js (`error_cache`). */
module ErrorCache {
  type Counts = map<string, nat>

  /** The count of `sink`, 0 when it has no entry. */
  function CountOf(counts: Counts, sink: string): nat {
    if sink in counts then counts[sink] else 0
  }

  /**
   * One outbound error on `sink`: its counter goes up by one, starting from 1
   * when it has no entry; every other entry is left as it was.
   */
  function Increment(counts: Counts, sink: string): (r: Counts)
    ensures sink in r && r[sink] == CountOf(counts, sink) + 1
    ensures forall s :: s != sink ==> (s in r <==> s in counts)
    ensures forall s :: s != sink && s in counts ==> r[s] == counts[s]
  {
    counts[sink := if sink in counts && counts[sink] > 0 then counts[sink] + 1 else 1]
  }

  /** The counters after the given outbound errors, in the order they were reported. */
  function AfterErrors(counts: Counts, errors: seq<string>): Counts {
    if errors == [] then counts
    else Increment(AfterErrors(counts, errors[..|errors| - 1]), errors[|errors| - 1])
  }

  /**
   * Each counter is its starting value plus the number of errors reported for
   * that sink, and a sink has an entry exactly when it had one or has erred.
   */
  lemma {:induction false} AfterErrorsCounts(counts: Counts, errors: seq<string>, sink: string)
    ensures sink in AfterErrors(counts, errors) <==> sink in counts || sink in errors
    ensures CountOf(AfterErrors(counts, errors), sink) == CountOf(counts, sink) + multiset(errors)[sink]
  {
    if errors != [] {
      var init, last := errors[..|errors| - 1], errors[|errors| - 1];
      assert errors == init + [last];
      AfterErrorsCounts(counts, init, sink);
    }
  }

  /** Counters never decrease and entries never disappear. */
  lemma {:induction false} AfterErrorsMonotone(counts: Counts, errors: seq<string>)
    ensures counts.Keys <= AfterErrors(counts, errors).Keys
    ensures forall s :: s in counts ==> counts[s] <= AfterErrors(counts, errors)[s]
  {
    if errors != [] {
      AfterErrorsMonotone(counts, errors[..|errors| - 1]);
    }
  }

  /** Starting from all entries at least 1, as the gateway's counters are, every entry stays at least 1. */
  lemma {:induction false} AfterErrorsPositive(counts: Counts, errors: seq<string>)
    requires forall s :: s in counts ==> counts[s] >= 1
    ensures forall s :: s in AfterErrors(counts, errors) ==> AfterErrors(counts, errors)[s] >= 1
  {
    if errors != [] {
      AfterErrorsPositive(counts, errors[..|errors| - 1]);
    }
  }
}
