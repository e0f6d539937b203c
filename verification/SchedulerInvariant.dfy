/** What ties the scheduler's states to the cache, and what one candidate's turn does. */
module SchedulerInvariant {
  import opened KvCache
  import opened KvInvariant
  import opened KvOperations
  import opened KvPrompt
  import opened KvSequence
  import opened KvTheory
  import opened Scheduler

  predicate Live(s: State) { s.promptAllocated && !s.done }

  predicate StateOk(s: State) {
    && 0 <= s.prefillRemaining <= s.request.promptTokens
    && 0 <= s.generated <= s.request.maxTokens
    && (s.promptReady ==> s.promptAllocated && s.prefillRemaining == 0)
    && (Live(s) && !s.promptReady ==> s.prefillRemaining > 0)
    && (!s.promptAllocated ==> s.prefillRemaining == s.request.promptTokens)
    && (s.generated > 0 ==> s.promptReady)
  }

  predicate ResultOk(s: State, r: Result) {
    && r.id == s.request.id
    && r.promptTokens == s.request.promptTokens
    && -1 <= r.firstTokenStep && (r.firstTokenStep >= 0 <==> s.generated > 0)
    && r.status != Cancelled
    && (!s.done ==> r.status == Rejected && r.completionStep == -1 && r.generatedTokens == 0)
    && (s.done ==> r.generatedTokens == s.generated)
    && (s.done && s.promptAllocated ==> s.promptReady)
    && (s.done && s.promptReady ==> (r.status == Completed <==> s.generated == s.request.maxTokens))
    && (r.status == Completed ==> s.done && s.promptReady)
  }

  /** A request's states and results agree, and the live states are the cache's sequences. */
  ghost predicate SysInv(sys: Sys) {
    && Shaped(sys)
    && Inv(sys.kv)
    && (forall i: nat | i < |sys.states| :: StateOk(sys.states[i]) && ResultOk(sys.states[i], sys.results[i]))
    && TableOk(sys.kv.sequences, sys.states)
  }

  lemma SysFacts(sys: Sys)
    requires SysInv(sys)
    ensures Shaped(sys) && Inv(sys.kv)
    ensures forall i: nat | i < |sys.states| :: StateOk(sys.states[i]) && ResultOk(sys.states[i], sys.results[i])
  {
  }

  ghost predicate Owns(sequences: map<string, Sequence>, s: State) {
    s.request.id in sequences && sequences[s.request.id].generatedTokens == s.generated
  }

  ghost predicate TableOk(sequences: map<string, Sequence>, states: seq<State>) {
    && (forall i: nat | i < |states| && Live(states[i]) :: Owns(sequences, states[i]))
    && (forall id | id in sequences :: HasOwner(states, id))
    && (forall i: nat, j: nat | i < j < |states| && Live(states[i]) && Live(states[j]) ::
          states[i].request.id != states[j].request.id)
  }

  ghost predicate HasOwner(states: seq<State>, id: string) {
    exists i: nat :: i < |states| && Live(states[i]) && states[i].request.id == id
  }

  /** Position `i` alone changed from `a` to `b`. */
  ghost predicate OnlyAt(a: Sys, b: Sys, i: nat)
    requires i < |a.states|
  {
    && |a.results| == |a.states|
    && |b.states| == |a.states| && |b.results| == |a.results|
    && b.states == a.states[i := b.states[i]] && b.results == a.results[i := b.results[i]]
    && b.states[i].request == a.states[i].request
  }

  lemma KeepsOthersOk(a: Sys, b: Sys, i: nat)
    requires SysInv(a) && i < |a.states| && OnlyAt(a, b, i) && Shaped(b) && Inv(b.kv)
    requires StateOk(b.states[i]) && ResultOk(b.states[i], b.results[i])
    requires TableOk(b.kv.sequences, b.states)
    ensures SysInv(b)
  {
  }

  lemma TableAdds(sequences: map<string, Sequence>, after: map<string, Sequence>, states: seq<State>, i: nat, s: State)
    requires TableOk(sequences, states) && i < |states| && !Live(states[i])
    requires Live(s) && s.request.id !in sequences && s.request.id in after
    requires after == sequences[s.request.id := after[s.request.id]]
    requires after[s.request.id].generatedTokens == s.generated
    ensures TableOk(after, states[i := s])
  {
    var states' := states[i := s];
    forall id | id in after
      ensures HasOwner(states', id)
    {
      if id == s.request.id {
        assert states'[i] == s;
      } else {
        assert HasOwner(states, id);
        var j: nat :| j < |states| && Live(states[j]) && states[j].request.id == id;
        assert states'[j] == states[j];
      }
    }
    forall j: nat | j < |states'| && Live(states'[j])
      ensures Owns(after, states'[j]) && (j != i ==> states'[j].request.id != s.request.id)
    {
      if j != i {
        assert Owns(sequences, states[j]);
      }
    }
  }

  lemma TableUpdates(sequences: map<string, Sequence>, after: map<string, Sequence>, states: seq<State>, i: nat, s: State)
    requires TableOk(sequences, states) && i < |states| && Live(states[i])
    requires Live(s) && s.request == states[i].request && s.request.id in after
    requires after == sequences[s.request.id := after[s.request.id]]
    requires after[s.request.id].generatedTokens == s.generated
    ensures TableOk(after, states[i := s])
  {
    var states' := states[i := s];
    assert Owns(sequences, states[i]);
    forall id | id in after
      ensures HasOwner(states', id)
    {
      assert HasOwner(states, id);
      var j: nat :| j < |states| && Live(states[j]) && states[j].request.id == id;
      assert Live(states'[j]) && states'[j].request.id == id;
    }
    forall j: nat | j < |states'| && Live(states'[j])
      ensures Owns(after, states'[j])
    {
      assert Owns(sequences, states[j]);
    }
  }

  lemma TableRemoves(sequences: map<string, Sequence>, after: map<string, Sequence>, states: seq<State>, i: nat, s: State)
    requires TableOk(sequences, states) && i < |states| && Live(states[i])
    requires !Live(s) && s.request == states[i].request && after == sequences - {s.request.id}
    ensures TableOk(after, states[i := s])
  {
    var states' := states[i := s];
    forall id | id in after
      ensures HasOwner(states', id)
    {
      assert HasOwner(states, id);
      var j: nat :| j < |states| && Live(states[j]) && states[j].request.id == id;
      assert j != i && states'[j] == states[j];
    }
    forall j: nat | j < |states'| && Live(states'[j])
      ensures Owns(after, states'[j])
    {
      assert Owns(sequences, states[j]);
    }
  }

  lemma TableKeeps(sequences: map<string, Sequence>, states: seq<State>, i: nat, s: State)
    requires TableOk(sequences, states) && i < |states|
    requires Live(s) == Live(states[i]) && s.request == states[i].request && s.generated == states[i].generated
    ensures TableOk(sequences, states[i := s])
  {
    var states' := states[i := s];
    forall id | id in sequences
      ensures HasOwner(states', id)
    {
      assert HasOwner(states, id);
      var j: nat :| j < |states| && Live(states[j]) && states[j].request.id == id;
      assert Live(states'[j]) && states'[j].request.id == id;
    }
    forall j: nat | j < |states'| && Live(states'[j])
      ensures Owns(sequences, states'[j])
    {
      assert Owns(sequences, states[j]);
    }
  }

  // ---------------------------------------------------------- the four turns

  predicate Refused(s: State, r: Result, s': State, r': Result) {
    && !s.promptAllocated && s' == s.(done := true)
    && r' == r.(status := Rejected, message := r'.message, kvBlocks := r'.kvBlocks)
  }

  predicate Filled(s: State, r: Result, s': State, r': Result, consumed: int) {
    && 0 <= consumed <= s.prefillRemaining
    && s' == s.(promptAllocated := true, prefillRemaining := s.prefillRemaining - consumed,
                promptReady := s.prefillRemaining == consumed)
    && r' == r.(cacheHit := r'.cacheHit)
  }

  lemma PrefillTurn(sys: Sys, i: nat, budget: int)
    requires SysInv(sys) && i < |sys.states| && Waiting(sys.states[i]) && sys.states[i].promptAllocated && budget > 0
    ensures var (after, consumed) := Prefill(sys, i, budget);
            && SysInv(after) && OnlyAt(sys, after, i) && after.kv == sys.kv
            && consumed == Min(budget, sys.states[i].prefillRemaining)
            && Filled(sys.states[i], sys.results[i], after.states[i], after.results[i], consumed)
  {
    hide Holds, TableOk;
    var (after, consumed) := Prefill(sys, i, budget);
    TableKeeps(sys.kv.sequences, sys.states, i, after.states[i]);
    KeepsOthersOk(sys, after, i);
  }

  /** What a prefill candidate's turn does: it is refused, or it spends all the budget it can use. */
  ghost predicate Admitted(sys: Sys, i: nat, budget: int, after: Sys, consumed: int)
    requires i < |sys.states| && |sys.results| == |sys.states|
  {
    && OnlyAt(sys, after, i)
    && (sys.states[i].promptAllocated ==> after.kv == sys.kv)
    && (|| (Refused(sys.states[i], sys.results[i], after.states[i], after.results[i]) && consumed == 0)
        || (Filled(sys.states[i], sys.results[i], after.states[i], after.results[i], consumed)
            && consumed == Min(budget, sys.states[i].prefillRemaining)))
  }

  lemma AdmitTurn(sys: Sys, i: nat, budget: int)
    requires SysInv(sys) && i < |sys.states| && Waiting(sys.states[i]) && budget > 0
    ensures var (after, consumed) := Admit(sys, i, budget);
            SysInv(after) && Admitted(sys, i, budget, after, consumed)
  {
    hide Holds, TableOk, AllocatePrompt, PromptFits, OverwritesPrefix;
    var s := sys.states[i];
    if s.promptAllocated {
      PrefillTurn(sys, i, budget);
    } else {
      var q := s.request;
      AllocatePromptTheorem(sys.kv, q.id, q.promptTokens, q.key, q.prefixTokens);
      PromptKeepsShape(sys.kv, q.id, q.promptTokens, q.key, q.prefixTokens);
      var (kv, r) := AllocatePrompt(sys.kv, q.id, q.promptTokens, q.key, q.prefixTokens);
      if r.ok {
        AdmitAccepted(sys, i, budget, kv, r.cacheHit);
      } else {
        TableKeeps(sys.kv.sequences, sys.states, i, s.(done := true));
        KeepsOthersOk(sys, RejectPrompt(sys, i, kv, r.message), i);
      }
    }
  }

  lemma AdmitAccepted(sys: Sys, i: nat, budget: int, kv: Kv, hit: bool)
    requires SysInv(sys) && i < |sys.states| && Waiting(sys.states[i]) && !sys.states[i].promptAllocated && budget > 0
    requires Inv(kv) && kv.tokensPerBlock > 0
    requires var id := sys.states[i].request.id;
             && id !in sys.kv.sequences && id in kv.sequences
             && kv.sequences == sys.kv.sequences[id := kv.sequences[id]] && kv.sequences[id].generatedTokens == 0
    ensures var admitted := Sys(kv, sys.states[i := sys.states[i].(promptAllocated := true)],
                                sys.results[i := sys.results[i].(cacheHit := hit)]);
            var (after, consumed) := Prefill(admitted, i, budget);
            SysInv(after) && Admitted(sys, i, budget, after, consumed)
  {
    hide Holds, TableOk;
    var s := sys.states[i];
    var admitted := Sys(kv, sys.states[i := s.(promptAllocated := true)], sys.results[i := sys.results[i].(cacheHit := hit)]);
    var (after, consumed) := Prefill(admitted, i, budget);
    TableAdds(sys.kv.sequences, kv.sequences, sys.states, i, after.states[i]);
    assert after.states == sys.states[i := after.states[i]];
    KeepsOthersOk(sys, after, i);
  }

  predicate GotToken(s: State, r: Result, s': State, r': Result, t: int) {
    && s' == s.(generated := s.generated + 1, done := s.generated + 1 == s.request.maxTokens)
    && r'.firstTokenStep == (if r.firstTokenStep < 0 then t else r.firstTokenStep)
    && (if s'.done
        then r' == r.(firstTokenStep := r'.firstTokenStep, status := Completed, message := "completed",
                      generatedTokens := s'.generated, completionStep := t, kvBlocks := r'.kvBlocks)
        else r' == r.(firstTokenStep := r'.firstTokenStep))
  }

  predicate LostOut(s: State, r: Result, s': State, r': Result) {
    && s' == s.(done := true)
    && r' == r.(status := Rejected, message := r'.message, generatedTokens := s.generated, kvBlocks := r'.kvBlocks)
  }

  ghost predicate DecodedOnce(sys: Sys, i: nat, t: int, after: Sys, decoded: bool)
    requires i < |sys.states| && |sys.results| == |sys.states|
  {
    && OnlyAt(sys, after, i)
    && (if decoded then GotToken(sys.states[i], sys.results[i], after.states[i], after.results[i], t)
        else LostOut(sys.states[i], sys.results[i], after.states[i], after.results[i]))
  }

  lemma DecodeTurn(sys: Sys, i: nat, t: int)
    requires SysInv(sys) && i < |sys.states| && Decoding(sys.states[i]) && t >= 0
    ensures var (after, decoded) := Decode(sys, i, t);
            && SysInv(after) && DecodedOnce(sys, i, t, after, decoded)
            && (decoded <==> AppendAccepted(sys.kv, sys.states[i].request.id, 1))
  {
    hide Holds, TableOk, AppendTokens, AppendAccepted;
    var s := sys.states[i];
    var id := s.request.id;
    LiveOwns(sys, i);
    AppendTokensTheorem(sys.kv, id, 1);
    AppendKeepsShape(sys.kv, id, 1);
    var (kv, r) := AppendTokens(sys.kv, id, 1);
    if r.ok {
      var counted := CountToken(sys, i, kv, t);
      TableUpdates(sys.kv.sequences, kv.sequences, sys.states, i, counted.states[i]);
      if s.generated + 1 == s.request.maxTokens {
        CompleteTurn(sys, i, t, kv);
      } else {
        KeepsOthersOk(sys, counted, i);
      }
    } else {
      RejectTokenTurn(sys, i, kv, r.message);
    }
  }

  lemma LiveOwns(sys: Sys, i: nat)
    requires SysInv(sys) && i < |sys.states| && Live(sys.states[i])
    ensures Owns(sys.kv.sequences, sys.states[i])
  {
  }

  lemma CompleteTurn(sys: Sys, i: nat, t: int, kv: Kv)
    requires SysInv(sys) && i < |sys.states| && Decoding(sys.states[i]) && t >= 0
    requires sys.states[i].generated + 1 == sys.states[i].request.maxTokens
    requires Inv(kv) && kv.tokensPerBlock > 0
    requires var counted := CountToken(sys, i, kv, t); TableOk(kv.sequences, counted.states)
    ensures var after := Complete(CountToken(sys, i, kv, t), i, t);
            SysInv(after) && DecodedOnce(sys, i, t, after, true)
  {
    hide Holds, TableOk;
    var counted := CountToken(sys, i, kv, t);
    var after := Complete(counted, i, t);
    ReleaseTheorem(kv, sys.states[i].request.id);
    TableRemoves(kv.sequences, after.kv.sequences, counted.states, i, after.states[i]);
    assert after.states == sys.states[i := after.states[i]] && after.results == sys.results[i := after.results[i]];
    assert after.states == counted.states[i := after.states[i]];
    KeepsOthersOk(sys, after, i);
  }

  lemma RejectTokenTurn(sys: Sys, i: nat, kv: Kv, message: string)
    requires SysInv(sys) && i < |sys.states| && Decoding(sys.states[i])
    requires Inv(kv) && kv.tokensPerBlock > 0 && kv.sequences == sys.kv.sequences
    ensures var after := RejectToken(sys, i, kv, message);
            SysInv(after) && DecodedOnce(sys, i, 0, after, false)
  {
    hide Holds, TableOk;
    var after := RejectToken(sys, i, kv, message);
    ReleaseTheorem(kv, sys.states[i].request.id);
    TableRemoves(kv.sequences, after.kv.sequences, sys.states, i, after.states[i]);
    KeepsOthersOk(sys, after, i);
  }

  predicate FinishedEmpty(s: State, r: Result, s': State, r': Result, t: int) {
    && s' == s.(done := true)
    && r' == r.(status := Completed, message := "completed", completionStep := t, kvBlocks := r'.kvBlocks)
  }

  lemma FinishTurn(sys: Sys, i: nat, t: int)
    requires SysInv(sys) && i < |sys.states|
    ensures var after := FinishOne(sys, i, t);
            && SysInv(after) && OnlyAt(sys, after, i)
            && (if NothingToDecode(sys.states[i])
                then FinishedEmpty(sys.states[i], sys.results[i], after.states[i], after.results[i], t)
                else after == sys)
  {
    hide Holds, TableOk;
    if NothingToDecode(sys.states[i]) {
      var after := FinishOne(sys, i, t);
      ReleaseTheorem(sys.kv, sys.states[i].request.id);
      TableRemoves(sys.kv.sequences, after.kv.sequences, sys.states, i, after.states[i]);
      KeepsOthersOk(sys, after, i);
    }
  }
}
