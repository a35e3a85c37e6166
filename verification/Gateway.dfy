/** The streaming gateway (backend/ai/gateway/__init__.py, `stream_chat`, `_attempt`, `_StreamState`):
    retries and model fallback up to the first delta, no second start after it. A provider is any
    function from the model (its place in the list) and the attempt to what it streams and how that ends. */
module Gateway {

  const CHARS_PER_TOKEN := 4

  datatype Usage = Usage(prompt: nat, completion: nat, model: string, estimated: bool)

  datatype Delta =
    | Text(text: string)
    | Tool(name: string)
    | Used(usage: Usage)
    | Done(reason: string)
    | Error(cause: string)

  /** What a provider can send: the error delta is the gateway's own. */
  type ProviderDelta = d: Delta | !d.Error? witness Done("")

  datatype Option<T> = None | Some(value: T)

  datatype ProviderError = ProviderError(cause: string, retryable: bool)

  /** A stream of one call: its deltas, then either the end or an error. Time limits make it finite. */
  datatype Script = Script(deltas: seq<ProviderDelta>, error: Option<ProviderError>)

  type Provider = (nat, nat) -> Script

  /** `models` is the requested model and the fallbacks; `retries` the number of back-off delays. */
  datatype Config = Config(models: seq<string>, retries: nat, promptChars: nat)

  datatype StreamState = StreamState(model: string, started: bool, usageSeen: bool, chars: nat)

  datatype Attempt = Attempt(out: seq<Delta>, state: StreamState, failure: Option<ProviderError>)

  /** What the caller gets, and the model and attempt it comes from. */
  datatype Result = Yielded(out: seq<Delta>, m: nat, a: nat) | Raised(error: ProviderError, m: nat, a: nat)

  function AtLeastOne(n: nat): nat {
    if n > 1 then n else 1
  }

  function EstimatedUsage(cfg: Config, st: StreamState): Usage {
    Usage(AtLeastOne(cfg.promptChars / CHARS_PER_TOKEN), AtLeastOne(st.chars / CHARS_PER_TOKEN), st.model, true)
  }

  /** The usage nobody reported. */
  function Estimate(cfg: Config, st: StreamState): seq<Delta> {
    if st.usageSeen then [] else [Used(EstimatedUsage(cfg, st))]
  }

  function Observe(st: StreamState, d: ProviderDelta): StreamState {
    StreamState(st.model, true, st.usageSeen || d.Used?, st.chars + if d.Text? then |d.text| else 0)
  }

  /** A stream that ends without `done` counts as unavailable. */
  function EndError(error: Option<ProviderError>): ProviderError {
    if error.Some? then error.value else ProviderError("ProviderUnavailableError", true)
  }

  /** `_attempt`: one model, one call; `done` ends it. */
  function RunAttempt(cfg: Config, st: StreamState, deltas: seq<ProviderDelta>, error: Option<ProviderError>): Attempt
    decreases |deltas|
  {
    if deltas == [] then Attempt([], st, Some(EndError(error)))
    else if deltas[0].Done? then
      Attempt(Estimate(cfg, st) + [deltas[0]], st.(started := true), None)
    else
      var rest := RunAttempt(cfg, Observe(st, deltas[0]), deltas[1..], error);
      rest.(out := [deltas[0]] + rest.out)
  }

  function Interrupted(cfg: Config, st: StreamState, error: ProviderError): seq<Delta> {
    Estimate(cfg, st) + [Error(error.cause)]
  }

  /** The loops from model `m`, attempt `a` on; `st` is the state that survives silent failures. */
  function Chat(cfg: Config, provider: Provider, st: StreamState, m: nat, a: nat): Result
    requires m < |cfg.models| && a <= cfg.retries
    decreases |cfg.models| - m, cfg.retries - a
  {
    var script := provider(m, a);
    var r := RunAttempt(cfg, st.(model := cfg.models[m]), script.deltas, script.error);
    if r.failure.None? then Yielded(r.out, m, a)
    else if r.state.started then Yielded(r.out + Interrupted(cfg, r.state, r.failure.value), m, a)
    else if !r.failure.value.retryable || Last(cfg, m, a) then Raised(r.failure.value, m, a)
    else if a < cfg.retries then Chat(cfg, provider, r.state, m, a + 1)
    else Chat(cfg, provider, r.state, m + 1, 0)
  }

  predicate Last(cfg: Config, m: nat, a: nat) {
    m + 1 == |cfg.models| && a == cfg.retries
  }

  const FRESH := StreamState("", false, false, 0)

  function StreamChat(cfg: Config, provider: Provider): Result
    requires cfg.models != []
  {
    Chat(cfg, provider, FRESH, 0, 0)
  }

  // ---- What the caller may rely on ----

  predicate Terminal(d: Delta) {
    d.Done? || d.Error?
  }

  /** A stream the turn can consume: one terminal delta, last, with a usage before it. */
  ghost predicate WellEnded(out: seq<Delta>) {
    && out != [] && Terminal(out[|out| - 1])
    && (forall i :: 0 <= i < |out| - 1 ==> !Terminal(out[i]))
    && (exists i :: 0 <= i < |out| - 1 && out[i].Used?)
  }

  function CountUsed(out: seq<Delta>): nat {
    if out == [] then 0 else (if out[0].Used? then 1 else 0) + CountUsed(out[1..])
  }

  lemma {:induction false} CountUsedConcat(a: seq<Delta>, b: seq<Delta>)
    ensures CountUsed(a + b) == CountUsed(a) + CountUsed(b)
  {
    if a == [] {
      assert a + b == b;
    } else {
      assert (a + b)[1..] == a[1..] + b;
      CountUsedConcat(a[1..], b);
    }
  }

  /** The deltas of a script up to its `done`. */
  function BeforeDone(deltas: seq<ProviderDelta>): seq<Delta> {
    if deltas == [] || deltas[0].Done? then [] else [deltas[0]] + BeforeDone(deltas[1..])
  }

  predicate HasDone(deltas: seq<ProviderDelta>) {
    exists i :: 0 <= i < |deltas| && deltas[i].Done?
  }

  ghost predicate Completes(out: seq<Delta>, head: seq<Delta>, deltas: seq<ProviderDelta>) {
    exists done :: done in deltas && done.Done? && out == head + [done]
  }

  function TextLength(out: seq<Delta>): nat {
    if out == [] then 0 else (if out[0].Text? then |out[0].text| else 0) + TextLength(out[1..])
  }

  lemma {:induction false} AttemptState(cfg: Config, st: StreamState, deltas: seq<ProviderDelta>, error: Option<ProviderError>)
    ensures var r := RunAttempt(cfg, st, deltas, error);
            var sent := BeforeDone(deltas);
            && (r.state.usageSeen <==> st.usageSeen || CountUsed(sent) > 0)
            && r.state.chars == st.chars + TextLength(sent) && r.state.model == st.model
            && (r.failure.Some? ==> r.failure.value == EndError(error) && (r.state.started <==> st.started || sent != []))
    decreases |deltas|
  {
    if deltas != [] && !deltas[0].Done? {
      AttemptState(cfg, Observe(st, deltas[0]), deltas[1..], error);
      assert BeforeDone(deltas)[1..] == BeforeDone(deltas[1..]);
    }
  }

  lemma HasDoneTail(deltas: seq<ProviderDelta>)
    requires deltas != [] && !deltas[0].Done?
    ensures HasDone(deltas) <==> HasDone(deltas[1..])
  {
    if HasDone(deltas) {
      var i :| 0 <= i < |deltas| && deltas[i].Done?;
      assert deltas[1..][i - 1].Done?;
    }
  }

  lemma CompletesTail(out: seq<Delta>, head: seq<Delta>, deltas: seq<ProviderDelta>)
    requires deltas != [] && Completes(out, head, deltas[1..])
    ensures Completes([deltas[0]] + out, [deltas[0]] + head, deltas)
  {
    var done :| done in deltas[1..] && done.Done? && out == head + [done];
    assert done in deltas && [deltas[0]] + out == [deltas[0]] + head + [done];
  }

  /** One attempt relays what the provider sent before `done`, unchanged and in order; it adds `done`, and
      a usage in front of it when the provider reported none. */
  lemma {:induction false} AttemptMeaning(cfg: Config, st: StreamState, deltas: seq<ProviderDelta>, error: Option<ProviderError>)
    ensures var r := RunAttempt(cfg, st, deltas, error);
            && (r.failure.None? <==> HasDone(deltas))
            && (r.failure.Some? ==> r.out == BeforeDone(deltas))
            && (r.failure.None? ==> Completes(r.out, BeforeDone(deltas) + Estimate(cfg, r.state), deltas))
    decreases |deltas|
  {
    if deltas == [] {
    } else if deltas[0].Done? {
      var r := RunAttempt(cfg, st, deltas, error);
      assert BeforeDone(deltas) + Estimate(cfg, r.state) + [deltas[0]] == r.out;
      assert deltas[0] in deltas;
    } else {
      AttemptMeaning(cfg, Observe(st, deltas[0]), deltas[1..], error);
      HasDoneTail(deltas);
      var r := RunAttempt(cfg, Observe(st, deltas[0]), deltas[1..], error);
      if r.failure.None? {
        CompletesTail(r.out, BeforeDone(deltas[1..]) + Estimate(cfg, r.state), deltas);
        assert [deltas[0]] + (BeforeDone(deltas[1..]) + Estimate(cfg, r.state)) == BeforeDone(deltas) + Estimate(cfg, r.state);
      }
    }
  }

  lemma AttemptUnfold(cfg: Config, st: StreamState, deltas: seq<ProviderDelta>, i: nat, error: Option<ProviderError>)
    requires i < |deltas| && !deltas[i].Done?
    ensures var rest := RunAttempt(cfg, Observe(st, deltas[i]), deltas[i + 1..], error);
            RunAttempt(cfg, st, deltas[i..], error) == rest.(out := [deltas[i]] + rest.out)
  {
    assert deltas[i..][1..] == deltas[i + 1..];
  }

  lemma SilentCall(cfg: Config, st: StreamState, script: Script)
    ensures var r := RunAttempt(cfg, st, script.deltas, script.error);
            r.failure.Some? && !r.state.started ==> script.deltas == [] && r.state == st && r.out == []
  {
    AttemptState(cfg, st, script.deltas, script.error);
    AttemptMeaning(cfg, st, script.deltas, script.error);
    assert HasDone(script.deltas) || BeforeDone(script.deltas) != [] || script.deltas == [];
  }

  lemma {:induction false} BeforeDoneOpen(deltas: seq<ProviderDelta>)
    ensures forall d :: d in BeforeDone(deltas) ==> !Terminal(d)
  {
    if deltas != [] && !deltas[0].Done? {
      BeforeDoneOpen(deltas[1..]);
    }
  }

  lemma {:induction false} CountedIsThere(out: seq<Delta>) returns (i: nat)
    requires CountUsed(out) > 0
    ensures i < |out| && out[i].Used?
  {
    if out[0].Used? {
      i := 0;
    } else {
      i := CountedIsThere(out[1..]);
      i := i + 1;
    }
  }

  /** A script that fails before its first delta, in a way another call may mend. */
  predicate Silent(script: Script) {
    script.deltas == [] && (script.error.None? || script.error.value.retryable)
  }

  function Quarter(chars: nat): nat {
    if chars < 8 then 1 else chars / 4
  }

  /** The usage in front of the last delta when the call reported none: a quarter of the characters asked and
      of those answered, one at least, under the model of the call. */
  function Owed(cfg: Config, model: string, sent: seq<Delta>): seq<Delta> {
    if exists i :: 0 <= i < |sent| && sent[i].Used? then []
    else [Used(Usage(Quarter(cfg.promptChars), Quarter(TextLength(sent)), model, true))]
  }

  /** What one call makes of the stream when it decides it. */
  ghost predicate Decides(cfg: Config, script: Script, result: Result)
    requires result.m < |cfg.models|
  {
    var sent := BeforeDone(script.deltas);
    var head := sent + Owed(cfg, cfg.models[result.m], sent);
    var error := if script.error.Some? then script.error.value else ProviderError("ProviderUnavailableError", true);
    if HasDone(script.deltas) then result.Yielded? && Completes(result.out, head, script.deltas)
    else if sent != [] then result.Yielded? && result.out == head + [Error(error.cause)]
    else result.Raised? && result.error == error
  }

  lemma EstimateIsOwed(cfg: Config, model: string, sent: seq<Delta>)
    ensures Estimate(cfg, StreamState(model, sent != [], CountUsed(sent) > 0, TextLength(sent))) == Owed(cfg, model, sent)
  {
    if CountUsed(sent) > 0 {
      var i := CountedIsThere(sent);
    } else {
      NoneCounted(sent);
    }
  }

  lemma {:induction false} NoneCounted(out: seq<Delta>)
    requires CountUsed(out) == 0
    ensures forall i :: 0 <= i < |out| ==> !out[i].Used?
  {
    if out != [] {
      NoneCounted(out[1..]);
      assert forall i :: 0 < i < |out| ==> out[i] == out[1..][i - 1];
    }
  }

  lemma OneCall(cfg: Config, script: Script, m: nat, a: nat)
    requires m < |cfg.models|
    ensures var r := RunAttempt(cfg, FRESH.(model := cfg.models[m]), script.deltas, script.error);
            && (r.failure.None? ==> Decides(cfg, script, Yielded(r.out, m, a)))
            && (r.failure.Some? && r.state.started ==>
                  Decides(cfg, script, Yielded(r.out + Interrupted(cfg, r.state, r.failure.value), m, a)))
            && (r.failure.Some? && !r.state.started ==>
                  && script.deltas == [] && r.failure.value == EndError(script.error) && r.state == FRESH.(model := cfg.models[m])
                  && Decides(cfg, script, Raised(r.failure.value, m, a)))
  {
    var st := FRESH.(model := cfg.models[m]);
    AttemptMeaning(cfg, st, script.deltas, script.error);
    AttemptState(cfg, st, script.deltas, script.error);
    var r := RunAttempt(cfg, st, script.deltas, script.error);
    var sent := BeforeDone(script.deltas);
    var seen := StreamState(cfg.models[m], sent != [], CountUsed(sent) > 0, TextLength(sent));
    EstimateIsOwed(cfg, cfg.models[m], sent);
    assert Estimate(cfg, r.state) == Estimate(cfg, seen);
    if r.failure.Some? && r.state.started {
      assert r.out + Interrupted(cfg, r.state, r.failure.value)
          == sent + Estimate(cfg, seen) + [Error(EndError(script.error).cause)];
    }
  }

  predicate Before(m: nat, a: nat, m1: nat, a1: nat) {
    m < m1 || (m == m1 && a < a1)
  }

  /** The calls from one place of the loops up to another were all silent. */
  ghost predicate SilentBetween(cfg: Config, provider: Provider, m: nat, a: nat, m1: nat, a1: nat) {
    forall i: nat, j: nat :: j <= cfg.retries && !Before(i, j, m, a) && Before(i, j, m1, a1) ==> Silent(provider(i, j))
  }

  lemma {:induction false} ChatDecided(cfg: Config, provider: Provider, st: StreamState, m: nat, a: nat)
    requires m < |cfg.models| && a <= cfg.retries && st == FRESH.(model := st.model)
    ensures var r := Chat(cfg, provider, st, m, a);
            && r.m < |cfg.models| && r.a <= cfg.retries && !Before(r.m, r.a, m, a)
            && Decides(cfg, provider(r.m, r.a), r)
            && SilentBetween(cfg, provider, m, a, r.m, r.a)
            && (Silent(provider(r.m, r.a)) ==> Last(cfg, r.m, r.a))
    decreases |cfg.models| - m, cfg.retries - a
  {
    var script := provider(m, a);
    OneCall(cfg, script, m, a);
    var r := RunAttempt(cfg, st.(model := cfg.models[m]), script.deltas, script.error);
    if r.failure.Some? && !r.state.started && r.failure.value.retryable && !Last(cfg, m, a) {
      if a < cfg.retries {
        ChatDecided(cfg, provider, r.state, m, a + 1);
      } else {
        ChatDecided(cfg, provider, r.state, m + 1, 0);
      }
    }
  }

  /** Whatever the provider does: the stream is that of one call, the first that is not silent (or the
      very last); every call before it, in order of models and attempts, was silent. */
  lemma OneCallDecides(cfg: Config, provider: Provider)
    requires cfg.models != []
    ensures var r := StreamChat(cfg, provider);
            && r.m < |cfg.models| && r.a <= cfg.retries
            && Decides(cfg, provider(r.m, r.a), r)
            && SilentBetween(cfg, provider, 0, 0, r.m, r.a)
            && (Silent(provider(r.m, r.a)) ==> Last(cfg, r.m, r.a))
  {
    ChatDecided(cfg, provider, FRESH, 0, 0);
  }

  /** What the deciding call reports before its `done`. */
  function Reported(script: Script): nat {
    CountUsed(BeforeDone(script.deltas))
  }

  lemma DecidedEndsWell(cfg: Config, script: Script, result: Result)
    requires result.m < |cfg.models| && Decides(cfg, script, result) && result.Yielded?
    ensures WellEnded(result.out)
    ensures CountUsed(result.out) == AtLeastOne(Reported(script))
  {
    var sent := BeforeDone(script.deltas);
    BeforeDoneOpen(script.deltas);
    var estimate := Owed(cfg, cfg.models[result.m], sent);
    EstimateIsOwed(cfg, cfg.models[result.m], sent);
    var last := result.out[|result.out| - 1];
    assert result.out == sent + estimate + [last];
    CountUsedConcat(sent, estimate);
    CountUsedConcat(sent + estimate, [last]);
    assert CountUsed([last]) == 0 && CountUsed(estimate) == |estimate|;
    var i := CountedIsThere(sent + estimate);
    assert result.out[i].Used?;
  }

  /** `stream_chat` raises having yielded nothing, or yields a stream with exactly one terminal delta, at
      the end, and usages before it: as many as the deciding call reported, and one when it reported none.
      So there is exactly one usage if and only if that call reported at most one. */
  lemma StreamsEndWell(cfg: Config, provider: Provider)
    requires cfg.models != []
    ensures var r := StreamChat(cfg, provider);
            r.Yielded? ==>
              && WellEnded(r.out)
              && CountUsed(r.out) == AtLeastOne(Reported(provider(r.m, r.a)))
              && (CountUsed(r.out) == 1 <==> Reported(provider(r.m, r.a)) <= 1)
  {
    OneCallDecides(cfg, provider);
    var r := StreamChat(cfg, provider);
    if r.Yielded? {
      DecidedEndsWell(cfg, provider(r.m, r.a), r);
    }
  }

  /** A provider that reports its usage twice makes the gateway yield both. */
  lemma TwoUsages(cfg: Config, provider: Provider, u: Usage, v: Usage)
    requires cfg.models != [] && provider(0, 0) == Script([Used(u), Used(v), Done("stop")], None)
    ensures StreamChat(cfg, provider) == Yielded([Used(u), Used(v), Done("stop")], 0, 0)
    ensures CountUsed([Used(u), Used(v), Done("stop")]) == 2
  {
    var all: seq<ProviderDelta> := [Used(u), Used(v), Done("stop")];
    var st := FRESH.(model := cfg.models[0]);
    var st1 := Observe(st, all[0]);
    var st2 := Observe(st1, all[1]);
    AttemptUnfold(cfg, st, all, 0, None);
    AttemptUnfold(cfg, st1, all, 1, None);
    assert all[0..] == all;
    assert RunAttempt(cfg, st2, all[2..], None) == Attempt([all[2]], st2, None);
    var out: seq<Delta> := all;
    assert out[1..] == [Used(v), Done("stop")] && out[1..][1..] == [Done("stop")] && out[1..][1..][1..] == [];
    assert CountUsed(out[1..][1..]) == 0;
  }

  // ---- The loops themselves ----

  /** What is left of an attempt, behind what has been handed on, makes up the whole. */
  ghost predicate Continues(whole: Attempt, before: seq<Delta>, rest: Attempt, out: seq<Delta>) {
    whole.state == rest.state && whole.failure == rest.failure && before + whole.out == out + rest.out
  }

  class Stream {
    const cfg: Config
    var model: string
    var started: bool
    var usageSeen: bool
    var chars: nat
    // What the caller has been handed so far.
    var out: seq<Delta>

    constructor (cfg: Config)
      ensures this.cfg == cfg && State() == FRESH && out == []
    {
      this.cfg := cfg;
      model, started, usageSeen, chars, out := "", false, false, 0, [];
    }

    function State(): StreamState
      reads this
    {
      StreamState(model, started, usageSeen, chars)
    }

    /** One delta handed on. */
    method Relay(delta: ProviderDelta)
      modifies this`started, this`usageSeen, this`chars, this`out
      ensures State() == Observe(old(State()), delta) && out == old(out) + [delta]
    {
      if delta.Used? {
        usageSeen := true;
      }
      if delta.Text? {
        chars := chars + |delta.text|;
      }
      started := true;
      out := out + [delta];
    }

    /** `_attempt`. */
    method RunOnce(script: Script) returns (failure: Option<ProviderError>)
      modifies this`started, this`usageSeen, this`chars, this`out
      ensures var r := RunAttempt(cfg, old(State()), script.deltas, script.error);
              State() == r.state && failure == r.failure && out == old(out) + r.out
    {
      var i := 0;
      ghost var whole := RunAttempt(cfg, State(), script.deltas, script.error);
      assert script.deltas[0..] == script.deltas;
      while i < |script.deltas|
        invariant 0 <= i <= |script.deltas|
        invariant Continues(whole, old(out), RunAttempt(cfg, State(), script.deltas[i..], script.error), out)
      {
        var delta := script.deltas[i];
        if delta.Done? {
          if !usageSeen {
            out := out + [Used(EstimatedUsage(cfg, State()))];
          }
          started := true;
          out := out + [delta];
          return None;
        }
        AttemptUnfold(cfg, State(), script.deltas, i, script.error);
        Relay(delta);
        i := i + 1;
      }
      return Some(EndError(script.error));
    }

    /** The attempts with one model; `calls` counts the calls to the provider. */
    method TryModel(provider: Provider, m: nat) returns (ended: bool, result: Result, calls: nat)
      requires m < |cfg.models| && State() == FRESH.(model := model) && out == []
      modifies this`model, this`started, this`usageSeen, this`chars, this`out
      ensures ended ==> result == Chat(cfg, provider, old(State()), m, 0) && calls == result.a + 1 <= cfg.retries + 1 && result.m == m
      ensures ended ==> out == if result.Yielded? then result.out else []
      ensures !ended ==> m + 1 < |cfg.models| && State() == FRESH.(model := model) && out == [] && calls == cfg.retries + 1
      ensures !ended ==> Chat(cfg, provider, old(State()), m, 0) == Chat(cfg, provider, State(), m + 1, 0)
    {
      ghost var st := State();
      calls := 0;
      result := Yielded([], 0, 0);
      for a := 0 to cfg.retries + 1
        invariant calls == a && out == [] && State() == FRESH.(model := model)
        invariant a <= cfg.retries ==> Chat(cfg, provider, st, m, 0) == Chat(cfg, provider, State(), m, a)
        invariant a == cfg.retries + 1 ==>
          m + 1 < |cfg.models| && Chat(cfg, provider, st, m, 0) == Chat(cfg, provider, State(), m + 1, 0)
      {
        model := cfg.models[m];
        SilentCall(cfg, State(), provider(m, a));
        var failure := RunOnce(provider(m, a));
        calls := calls + 1;
        if failure.None? {
          return true, Yielded(out, m, a), calls;
        }
        if started {
          out := out + Interrupted(cfg, State(), failure.value);
          return true, Yielded(out, m, a), calls;
        }
        var exhausted := m == |cfg.models| - 1 && a == cfg.retries;
        if !failure.value.retryable || exhausted {
          return true, Raised(failure.value, m, a), calls;
        }
      }
      ended := false;
    }

    /** `stream_chat`. */
    method Run(provider: Provider) returns (result: Result, calls: nat)
      requires cfg.models != [] && State() == FRESH && out == []
      modifies this`model, this`started, this`usageSeen, this`chars, this`out
      ensures result == StreamChat(cfg, provider)
      ensures out == if result.Yielded? then result.out else []
      ensures calls == result.m * (cfg.retries + 1) + result.a + 1 <= |cfg.models| * (cfg.retries + 1)
    {
      calls := 0;
      var m := 0;
      while true
        invariant m < |cfg.models| && calls == m * (cfg.retries + 1)
        invariant out == [] && State() == FRESH.(model := model)
        invariant StreamChat(cfg, provider) == Chat(cfg, provider, State(), m, 0)
        decreases |cfg.models| - m
      {
        var ended, tried;
        ended, result, tried := TryModel(provider, m);
        calls := calls + tried;
        NextProduct(m, cfg.retries + 1);
        if ended {
          ProductsGrow(m + 1, |cfg.models|, cfg.retries + 1);
          return;
        }
        m := m + 1;
      }
    }
  }

  lemma NextProduct(a: nat, c: nat)
    ensures (a + 1) * c == a * c + c
  {}

  lemma ProductsGrow(a: nat, b: nat, c: nat)
    requires a <= b
    ensures a * c <= b * c
  {}
}
