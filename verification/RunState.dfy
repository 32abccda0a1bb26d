/** The accumulators of a run (src/ap_agent/domain/run_state.py): lists that only grow, at most one entry to
    a key. Exceptions are keyed by category and failed rule. */
module RunState {
  import opened Prelude
  import opened Domain

  type Key = (Category, string)

  function KeyOf(e: ExceptionRecord): Key {
    (e.category, e.failedRule)
  }

  predicate HasKey(records: seq<ExceptionRecord>, key: Key) {
    exists i :: 0 <= i < |records| && KeyOf(records[i]) == key
  }

  function KeysOf(records: seq<ExceptionRecord>): set<Key> {
    set i | 0 <= i < |records| :: KeyOf(records[i])
  }

  /** The list after offering it more records: a record whose key is already there is dropped. */
  function Accumulate(kept: seq<ExceptionRecord>, given: seq<ExceptionRecord>): seq<ExceptionRecord> {
    if given == [] then kept
    else
      var before := Accumulate(kept, given[..|given| - 1]);
      var last := given[|given| - 1];
      if HasKey(before, KeyOf(last)) then before else before + [last]
  }

  /** Reasons and indicator codes are their own keys. */
  function AddNew(kept: seq<string>, given: seq<string>): seq<string> {
    if given == [] then kept
    else
      var before := AddNew(kept, given[..|given| - 1]);
      var last := given[|given| - 1];
      if last in before then before else before + [last]
  }

  class RunState {
    var exceptions: seq<ExceptionRecord>
    var invalidReasons: seq<string>
    var indicators: seq<string>

    constructor (exceptions: seq<ExceptionRecord>, invalidReasons: seq<string>, indicators: seq<string>)
      ensures this.exceptions == exceptions && this.invalidReasons == invalidReasons && this.indicators == indicators
    {
      this.exceptions, this.invalidReasons, this.indicators := exceptions, invalidReasons, indicators;
    }

    method AddExceptions(values: seq<ExceptionRecord>)
      modifies this`exceptions
      ensures exceptions == Accumulate(old(exceptions), values)
    {
      var existing := KeysOf(exceptions);
      var i := 0;
      while i < |values|
        invariant 0 <= i <= |values|
        invariant exceptions == Accumulate(old(exceptions), values[..i])
        invariant existing == KeysOf(exceptions)
      {
        assert values[..i + 1][..i] == values[..i];
        var key := KeyOf(values[i]);
        if key !in existing {
          KeysOfExtended(exceptions, values[i]);
          existing := existing + {key};
          exceptions := exceptions + [values[i]];
        }
        i := i + 1;
      }
      assert values[..i] == values;
    }

    method AddInvalidReasons(values: seq<string>)
      modifies this`invalidReasons
      ensures invalidReasons == AddNew(old(invalidReasons), values)
    {
      var i := 0;
      while i < |values|
        invariant 0 <= i <= |values|
        invariant invalidReasons == AddNew(old(invalidReasons), values[..i])
      {
        assert values[..i + 1][..i] == values[..i];
        if values[i] !in invalidReasons {
          invalidReasons := invalidReasons + [values[i]];
        }
        i := i + 1;
      }
      assert values[..i] == values;
    }

    method AddIndicators(codes: seq<string>)
      modifies this`indicators
      ensures indicators == AddNew(old(indicators), codes)
    {
      var i := 0;
      while i < |codes|
        invariant 0 <= i <= |codes|
        invariant indicators == AddNew(old(indicators), codes[..i])
      {
        assert codes[..i + 1][..i] == codes[..i];
        if codes[i] !in indicators {
          indicators := indicators + [codes[i]];
        }
        i := i + 1;
      }
      assert codes[..i] == codes;
    }
  }

  predicate Distinct(s: seq<string>) {
    forall i, j | 0 <= i < j < |s| :: s[i] != s[j]
  }

  /** Nothing recorded is moved or repeated, and the list holds exactly what was kept or given. */
  lemma {:induction false} AddNewKeeps(kept: seq<string>, given: seq<string>)
    ensures kept <= AddNew(kept, given)
    ensures Distinct(kept) ==> Distinct(AddNew(kept, given))
    ensures forall x :: x in AddNew(kept, given) <==> x in kept || x in given
  {
    if given != [] {
      var front := given[..|given| - 1];
      AddNewKeeps(kept, front);
      assert given == front + [given[|given| - 1]];
    }
  }

  lemma NewOnesOrNone(given: seq<string>)
    ensures AddNew([], given) == [] <==> given == []
  {
    AddNewKeeps([], given);
    if given != [] {
      assert given[0] in AddNew([], given);
    }
  }

  lemma KeysOfExtended(records: seq<ExceptionRecord>, e: ExceptionRecord)
    ensures KeysOf(records + [e]) == KeysOf(records) + {KeyOf(e)}
    ensures forall key :: key in KeysOf(records) <==> HasKey(records, key)
  {
    var longer := records + [e];
    forall key | key in KeysOf(records) + {KeyOf(e)} ensures key in KeysOf(longer) {
      if key in KeysOf(records) {
        var i :| 0 <= i < |records| && KeyOf(records[i]) == key;
        assert KeyOf(longer[i]) == key;
      } else {
        assert KeyOf(longer[|records|]) == key;
      }
    }
  }

  // ---- what accumulation keeps --------------------------------------------------------

  predicate KeysDistinct(records: seq<ExceptionRecord>) {
    forall i, j | 0 <= i < j < |records| :: KeyOf(records[i]) != KeyOf(records[j])
  }

  /** Keys stay distinct, nothing recorded is ever moved or lost, everything kept was given, and every
      given key is represented. */
  lemma {:induction false} AccumulateKeeps(kept: seq<ExceptionRecord>, given: seq<ExceptionRecord>)
    ensures kept <= Accumulate(kept, given)
    ensures KeysDistinct(kept) ==> KeysDistinct(Accumulate(kept, given))
    ensures forall e :: e in Accumulate(kept, given) ==> e in kept || e in given
    ensures forall i :: 0 <= i < |given| ==> HasKey(Accumulate(kept, given), KeyOf(given[i]))
  {
    if given != [] {
      var front, last := given[..|given| - 1], given[|given| - 1];
      var before, after := Accumulate(kept, front), Accumulate(kept, given);
      AccumulateKeeps(kept, front);
      assert given == front + [last];
      if !HasKey(before, KeyOf(last)) {
        assert KeyOf(after[|before|]) == KeyOf(last);
      }
      forall i | 0 <= i < |given| ensures HasKey(after, KeyOf(given[i])) {
        if i < |front| {
          assert front[i] == given[i];
          var j :| 0 <= j < |before| && KeyOf(before[j]) == KeyOf(front[i]);
          assert KeyOf(after[j]) == KeyOf(given[i]);
        }
      }
    }
  }

  /** Feeding two batches is feeding their concatenation. */
  lemma {:induction false} AccumulateJoins(
      kept: seq<ExceptionRecord>, first: seq<ExceptionRecord>, second: seq<ExceptionRecord>)
    ensures Accumulate(kept, first + second) == Accumulate(Accumulate(kept, first), second)
  {
    if second == [] {
      assert first + second == first;
    } else {
      var last := |second| - 1;
      assert (first + second)[..|first + second| - 1] == first + second[..last];
      AccumulateJoins(kept, first, second[..last]);
    }
  }

  /** Running a control a second time records nothing new. */
  lemma {:induction false} AccumulateAgain(kept: seq<ExceptionRecord>, given: seq<ExceptionRecord>)
    requires forall i :: 0 <= i < |given| ==> HasKey(kept, KeyOf(given[i]))
    ensures Accumulate(kept, given) == kept
  {
    if given != [] {
      var front := given[..|given| - 1];
      assert forall i :: 0 <= i < |front| ==> front[i] == given[i];
      AccumulateAgain(kept, front);
    }
  }

  lemma RepeatingAControlAddsNothing(kept: seq<ExceptionRecord>, given: seq<ExceptionRecord>)
    ensures Accumulate(Accumulate(kept, given), given) == Accumulate(kept, given)
  {
    AccumulateKeeps(kept, given);
    AccumulateAgain(Accumulate(kept, given), given);
  }

  // ---- blocking records ---------------------------------------------------------------

  /** The record at `i` blocks, and no earlier one has its key. */
  predicate LeadsItsKey(given: seq<ExceptionRecord>, i: nat)
    requires i < |given|
  {
    given[i].blocking && forall j :: 0 <= j < i ==> KeyOf(given[j]) != KeyOf(given[i])
  }

  /** De-duplication keeps a blocking record exactly when some blocking record is the first of its key. */
  lemma {:induction false} BlockSurvivesExactlyWhenItLeads(given: seq<ExceptionRecord>)
    ensures Any(Accumulate([], given), IsBlocking) <==> exists i :: 0 <= i < |given| && LeadsItsKey(given, i)
  {
    if given != [] {
      var front, last := given[..|given| - 1], given[|given| - 1];
      var before, after := Accumulate([], front), Accumulate([], given);
      BlockSurvivesExactlyWhenItLeads(front);
      AccumulateKeeps([], front);
      forall i | 0 <= i < |front| ensures LeadsItsKey(given, i) <==> LeadsItsKey(front, i) {
      }
      LastLeads(given);
      if Any(before, IsBlocking) {
        var j :| 0 <= j < |before| && IsBlocking(before[j]);
        assert IsBlocking(after[j]);
      }
      if !HasKey(before, KeyOf(last)) && last.blocking {
        assert IsBlocking(after[|before|]);
      }
    }
  }

  lemma LastLeads(given: seq<ExceptionRecord>)
    requires given != []
    ensures var n := |given| - 1;
      LeadsItsKey(given, n) <==> given[n].blocking && !HasKey(Accumulate([], given[..n]), KeyOf(given[n]))
  {
    var n := |given| - 1;
    var front, kept := given[..n], Accumulate([], given[..n]);
    AccumulateKeeps([], front);
    if HasKey(kept, KeyOf(given[n])) {
      var j :| 0 <= j < |kept| && KeyOf(kept[j]) == KeyOf(given[n]);
      assert kept[j] in front;
    }
    forall j | 0 <= j < n && KeyOf(given[j]) == KeyOf(given[n]) ensures HasKey(kept, KeyOf(given[n])) {
      assert KeyOf(front[j]) == KeyOf(given[n]);
    }
  }

  predicate FlagsAgree(given: seq<ExceptionRecord>) {
    forall i, j | 0 <= i < |given| && 0 <= j < |given| ::
      KeyOf(given[i]) == KeyOf(given[j]) ==> given[i].blocking == given[j].blocking
  }

  /** When the flag is determined by the key, no blocking record is ever lost. */
  lemma NoBlockingRecordIsLost(given: seq<ExceptionRecord>)
    requires FlagsAgree(given)
    ensures Any(Accumulate([], given), IsBlocking) <==> Any(given, IsBlocking)
  {
    BlockSurvivesExactlyWhenItLeads(given);
    if Any(given, IsBlocking) {
      var i :| 0 <= i < |given| && IsBlocking(given[i]);
      FirstOfKey(given, i);
    }
    if k :| 0 <= k < |given| && LeadsItsKey(given, k) {
      assert IsBlocking(given[k]);
    }
  }

  lemma {:induction false} FirstOfKey(given: seq<ExceptionRecord>, i: nat)
    requires FlagsAgree(given) && i < |given| && given[i].blocking
    ensures exists k :: 0 <= k < |given| && LeadsItsKey(given, k)
    decreases i
  {
    if j :| 0 <= j < i && KeyOf(given[j]) == KeyOf(given[i]) {
      FirstOfKey(given, j);
    } else {
      assert LeadsItsKey(given, i);
    }
  }

  /** The concrete failing input: a non-blocking record hides a later blocking one with its key. */
  lemma ConflictingFlagsLoseABlock()
    ensures var given := [ExceptionRecord(OtherControlRisk, "r", false), ExceptionRecord(OtherControlRisk, "r", true)];
      Any(given, IsBlocking) && !Any(Accumulate([], given), IsBlocking)
  {
    var soft, hard := ExceptionRecord(OtherControlRisk, "r", false), ExceptionRecord(OtherControlRisk, "r", true);
    var given := [soft, hard];
    assert given[..1] == [soft] && [soft][..0] == [];
    assert Accumulate([], [soft]) == [soft];
    assert KeyOf([soft][0]) == KeyOf(hard);
    assert Accumulate([], given) == [soft];
    assert IsBlocking(given[1]);
  }
}
