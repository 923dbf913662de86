/**
 * The LLM client: retries, fallback to the light model, and the answer cache, against any upstream.
 */
module Llm {
  import opened Common

  type Model = string

  /** What is known of an error: the tests the client makes on it, in any combination. */
  datatype Failure = Failure(thinkingRejected: bool, overloaded: bool, dailyQuota: bool, retryable: bool)

  datatype Reply = Text(text: string) | Error(error: Failure)

  datatype Outcome =
    | Answer(text: string, model: Model)
    | QuotaExhausted
    | Failed(error: Failure)

  datatype Config = Config(main: Model, light: Model, retries: int, fallbackAfter503: int)

  /** The n-th request gets reply(n, model, thinking); the n-th acquire is refused if capped(n, model). */
  datatype Upstream = Upstream(reply: (nat, Model, bool) -> Reply, capped: (nat, Model) -> bool)

  /** What is left of one call: retries, rejections of the thinking setting (one per model), and the fallback. */
  function RequestsLeft(c: Config, noThinking: set<Model>, model: Model, retry: int): nat
    requires 0 <= retry <= Max(0, c.retries)
  {
    1 + Max(0, c.retries) - retry
    + (if model !in noThinking then 1 else 0)
    + (if CanFall(c, model) then 1 + (if c.light !in noThinking then 1 else 0) else 0)
  }

  predicate CanFall(c: Config, model: Model) { model == c.main && c.main != c.light }

  const SPARE_REQUESTS := 4

  datatype Schema = Schema(name: string)

  datatype Params = Params(temperature: real, maxTokens: int, thinking: Option<string>, schema: Option<Schema>)

  /** The cache key is a hash of the model, the prompt and the parameters, taken to be collision-free. */
  datatype Key = Key(model: Model, prompt: string, params: Params)

  datatype Generated = Good(text: string, model: Model, cached: bool) | Invalid | NoAnswer(why: Outcome)

  /** Where one call stands. */
  datatype Turn = Turn(model: Model, retry: nat, overloaded: nat, noThinking: set<Model>, sent: nat, acquires: nat)

  datatype End = End(out: Outcome, noThinking: set<Model>, sent: nat, acquires: nat)

  /** What one turn of the loop does. */
  datatype Progress = Go(turn: Turn) | Over(end: End)

  function Next(c: Config, up: Upstream, t: Turn): Progress {
    var acquires := t.acquires + 1;
    if up.capped(acquires, t.model) then
      if CanFall(c, t.model) then Go(t.(model := c.light, acquires := acquires))
      else Over(End(QuotaExhausted, t.noThinking, t.sent, acquires))
    else
      var after := t.(acquires := acquires, sent := t.sent + 1);
      match up.reply(t.sent, t.model, t.model !in t.noThinking)
      case Text(text) => Over(End(Answer(text, t.model), t.noThinking, after.sent, acquires))
      case Error(e) => AfterError(c, after, e)
  }

  function AfterError(c: Config, t: Turn, e: Failure): Progress {
    var overloaded := t.overloaded + if e.overloaded then 1 else 0;
    if t.model !in t.noThinking && e.thinkingRejected then Go(t.(noThinking := t.noThinking + {t.model}))
    else if (overloaded > c.fallbackAfter503 || e.dailyQuota) && CanFall(c, t.model) then
      Go(t.(model := c.light, overloaded := 0))
    else if e.dailyQuota then Over(End(QuotaExhausted, t.noThinking, t.sent, t.acquires))
    else if e.retryable && t.retry < c.retries then Go(t.(retry := t.retry + 1, overloaded := overloaded))
    else Over(End(Failed(e), t.noThinking, t.sent, t.acquires))
  }

  /** What is left of a call from t on. */
  function Left(c: Config, t: Turn): nat
    requires t.retry <= Max(0, c.retries)
  {
    RequestsLeft(c, t.noThinking, t.model, t.retry)
  }

  /** A turn that goes on has spent something: a request and one of what is left, or the fallback. */
  lemma {:induction false} TurnSpends(c: Config, up: Upstream, t: Turn)
    requires t.retry <= Max(0, c.retries) && Next(c, up, t).Go?
    ensures var u := Next(c, up, t).turn;
            && u.retry <= Max(0, c.retries) && t.sent <= u.sent && u.sent + Left(c, u) <= t.sent + Left(c, t)
            && (Left(c, u) < Left(c, t) || (Left(c, u) == Left(c, t) && CanFall(c, t.model) && !CanFall(c, u.model)))
            && (u.model == t.model || (CanFall(c, t.model) && u.model == c.light))
            && t.noThinking <= u.noThinking <= t.noThinking + {t.model}
  {}

  /** A call as the errors drive it, from any point on. */
  function Ends(c: Config, up: Upstream, t: Turn): End
    requires t.retry <= Max(0, c.retries)
    decreases Left(c, t), CanFall(c, t.model)
  {
    match Next(c, up, t)
    case Over(end) => end
    case Go(u) => TurnSpends(c, up, t); Ends(c, up, u)
  }

  /** A call sends at most retries + 4 requests, and its answer is the last one's. */
  lemma {:induction false} CallIsBounded(c: Config, up: Upstream, t: Turn)
    requires t.retry <= Max(0, c.retries)
    ensures var end := Ends(c, up, t);
            && t.sent <= end.sent <= t.sent + Left(c, t)
            && t.noThinking <= end.noThinking <= t.noThinking + {t.model, c.light}
            && (end.out.Answer? ==>
                  && (end.out.model == t.model || (CanFall(c, t.model) && end.out.model == c.light))
                  && end.sent > t.sent
                  && up.reply(end.sent - 1, end.out.model, end.out.model !in end.noThinking) == Text(end.out.text))
    decreases Left(c, t), CanFall(c, t.model)
  {
    if Next(c, up, t).Go? {
      TurnSpends(c, up, t);
      CallIsBounded(c, up, Next(c, up, t).turn);
    }
  }

  /** Both models reject the thinking setting, the main one has no quota left, and every retry is used. */
  function Worst(c: Config): Upstream {
    Upstream((n, model, thinking) =>
               if n == 0 || n == 2 then Error(Failure(true, false, false, false))
               else if n == 1 then Error(Failure(false, false, true, true))
               else if n < 3 + Max(0, c.retries) then Error(Failure(false, false, false, true))
               else Text("answer"),
             (n, model) => false)
  }

  lemma {:induction false} WorstRetries(c: Config, t: Turn)
    requires t.model == c.light != c.main && c.light in t.noThinking
    requires t.retry <= Max(0, c.retries) && t.sent == 3 + t.retry
    ensures Ends(c, Worst(c), t).out == Answer("answer", c.light)
    ensures Ends(c, Worst(c), t).sent == Max(0, c.retries) + SPARE_REQUESTS
    decreases Max(0, c.retries) - t.retry
  {
    if t.retry < Max(0, c.retries) {
      assert Next(c, Worst(c), t).turn.overloaded == t.overloaded;
      WorstRetries(c, Next(c, Worst(c), t).turn);
    }
  }

  /** For every number of retries and whatever the fallback limit, the bound is reached. */
  lemma {:induction false} BoundIsReached(c: Config)
    requires c.main != c.light
    ensures var end := Ends(c, Worst(c), Turn(c.main, 0, 0, {}, 0, 0));
            end.out == Answer("answer", c.light) && end.sent == Max(0, c.retries) + SPARE_REQUESTS
  {
    var up := Worst(c);
    var t := Turn(c.main, 0, 0, {}, 0, 0);
    var t1 := Next(c, up, t).turn;
    var t2 := Next(c, up, t1).turn;
    var t3 := Next(c, up, t2).turn;
    assert t1.noThinking == {c.main} && t3.noThinking == {c.main, c.light};
    WorstRetries(c, t3);
    assert Ends(c, up, t2) == Ends(c, up, t3);
    assert Ends(c, up, t1) == Ends(c, up, t2);
  }

  // ----- which errors end a call, and how --------------------------------------------------------------------------

  /** The next request gets this error. */
  predicate Meets(up: Upstream, t: Turn, e: Failure) {
    !up.capped(t.acquires + 1, t.model) && up.reply(t.sent, t.model, t.model !in t.noThinking) == Error(e)
  }

  /** A turn later, with one more request sent. */
  function Later(t: Turn): Turn { t.(sent := t.sent + 1, acquires := t.acquires + 1) }

  /** A rejected thinking setting is dropped for that model, and the request is made again; no retry is used. */
  lemma {:induction false} ThinkingIsDropped(c: Config, up: Upstream, t: Turn, e: Failure)
    requires 0 <= t.retry <= Max(0, c.retries) && Meets(up, t, e)
    requires e.thinkingRejected && t.model !in t.noThinking
    ensures Ends(c, up, t) == Ends(c, up, Later(t).(noThinking := t.noThinking + {t.model}))
  {}

  /** A used-up quota sends the main model's call to the light one at once, and ends the light one's. */
  lemma {:induction false} QuotaFallsBack(c: Config, up: Upstream, t: Turn, e: Failure)
    requires 0 <= t.retry <= Max(0, c.retries) && Meets(up, t, e) && e.dailyQuota
    requires !e.thinkingRejected || t.model in t.noThinking
    ensures t.model == c.main != c.light ==>
              Ends(c, up, t) == Ends(c, up, Later(t).(model := c.light, overloaded := 0))
    ensures t.model == c.light || t.model != c.main ==>
              Ends(c, up, t) == End(QuotaExhausted, t.noThinking, t.sent + 1, t.acquires + 1)
  {}

  /** An error that will not go away ends the call, unless the main model has been overloaded too often. */
  lemma {:induction false} FinalErrorEnds(c: Config, up: Upstream, t: Turn, e: Failure)
    requires 0 <= t.retry <= Max(0, c.retries) && Meets(up, t, e) && !e.dailyQuota && !e.retryable
    requires !e.thinkingRejected || t.model in t.noThinking
    requires || t.model != c.main || c.main == c.light
             || t.overloaded + (if e.overloaded then 1 else 0) <= c.fallbackAfter503
    ensures Ends(c, up, t) == End(Failed(e), t.noThinking, t.sent + 1, t.acquires + 1)
  {}

  /** A reached daily cap does the same without a request. */
  lemma {:induction false} CapFallsBack(c: Config, up: Upstream, t: Turn)
    requires 0 <= t.retry <= Max(0, c.retries) && up.capped(t.acquires + 1, t.model)
    ensures t.model == c.main != c.light ==>
              Ends(c, up, t) == Ends(c, up, t.(model := c.light, acquires := t.acquires + 1))
    ensures t.model == c.light || t.model != c.main ==>
              Ends(c, up, t) == End(QuotaExhausted, t.noThinking, t.sent, t.acquires + 1)
  {}

  /** From the n-th request on, the model fails `times` times for a passing reason, then it answers. */
  ghost predicate Recovers(up: Upstream, model: Model, n: nat, times: nat, text: string) {
    && (forall m :: !up.capped(m, model))
    && forall k: nat, thinking :: n <= k <= n + times ==>
         up.reply(k, model, thinking)
           == if k < n + times then Error(Failure(false, false, false, true)) else Text(text)
  }

  /** As many passing failures as there are retries left are survived, and not one more. */
  lemma {:induction false} RetriesSurvive(c: Config, up: Upstream, t: Turn, times: nat, text: string)
    requires c.retries >= 0 && 0 <= t.retry <= c.retries && Recovers(up, t.model, t.sent, times, text)
    requires t.overloaded <= c.fallbackAfter503
    ensures var end := Ends(c, up, t);
            if times <= c.retries - t.retry then end.out == Answer(text, t.model) && end.sent == t.sent + times + 1
            else end.out.Failed? && end.sent == t.sent + (c.retries - t.retry) + 1
    decreases times
  {
    if times > 0 && t.retry < c.retries {
      var next := Next(c, up, t).turn;
      assert next == Later(t).(retry := t.retry + 1);
      RetriesSurvive(c, up, next, times - 1, text);
    }
  }

  /** The main model is always overloaded; the light one answers. */
  ghost predicate Overloads(c: Config, up: Upstream, text: string) {
    && (forall m, model :: !up.capped(m, model))
    && (forall k, thinking :: up.reply(k, c.main, thinking) == Error(Failure(false, true, false, true)))
    && forall k, thinking :: up.reply(k, c.light, thinking) == Text(text)
  }

  /**
   * The light model takes over after exactly one overload more than are tolerated, if the retries last until then;
   * otherwise the call fails when they are used up.
   */
  lemma {:induction false} OverloadFallsBackIff(c: Config, up: Upstream, t: Turn, text: string)
    requires c.main != c.light && t.model == c.main && Overloads(c, up, text)
    requires c.retries >= 0 && 0 <= t.retry <= c.retries && t.overloaded <= c.fallbackAfter503
    ensures var end, tolerated, left := Ends(c, up, t), c.fallbackAfter503 - t.overloaded, c.retries - t.retry;
            if tolerated <= left then end.out == Answer(text, c.light) && end.sent == t.sent + tolerated + 2
            else end.out.Failed? && end.sent == t.sent + left + 1
    decreases c.retries - t.retry
  {
    if t.overloaded < c.fallbackAfter503 && t.retry < c.retries {
      var next := Next(c, up, t).turn;
      assert next == Later(t).(retry := t.retry + 1, overloaded := t.overloaded + 1);
      OverloadFallsBackIff(c, up, next, text);
    } else if t.overloaded == c.fallbackAfter503 {
      assert Next(c, up, t).turn == Later(t).(model := c.light, overloaded := 0);
    }
  }

  lemma {:induction false} TakesTurn(c: Config, up: Upstream, t: Turn)
    requires t.retry <= Max(0, c.retries)
    ensures match Next(c, up, t)
            case Over(end) => Ends(c, up, t) == end
            case Go(u) =>
              && u.retry <= Max(0, c.retries) && Ends(c, up, t) == Ends(c, up, u)
              && (Left(c, u) < Left(c, t) || (Left(c, u) == Left(c, t) && CanFall(c, t.model) && !CanFall(c, u.model)))
  {
    if Next(c, up, t).Go? { TurnSpends(c, up, t); }
  }

  class Client {
    const cfg: Config
    const up: Upstream
    const valid: (Schema, string) -> bool
    var noThinking: set<Model>
    var sent: nat
    var acquires: nat
    var cache: map<Key, string>
    ghost var answers: set<(Key, string)>  // what each model has answered to which prompt and parameters

    /** A cached text is an answer of the model in its key to the prompt and parameters in it, and fits its schema. */
    ghost predicate CacheOk() reads this {
      forall k :: k in cache ==>
        (k, cache[k]) in answers && (k.params.schema.Some? ==> valid(k.params.schema.value, cache[k]))
    }

    constructor (cfg: Config, up: Upstream, valid: (Schema, string) -> bool)
      ensures CacheOk() && this.cfg == cfg && this.up == up && this.valid == valid && sent == 0 && cache == map[]
    {
      this.cfg, this.up, this.valid := cfg, up, valid;
      noThinking, sent, acquires, cache, answers := {}, 0, 0, map[], {};
    }

    /** _call */
    method Call(requested: Model, ghost prompt: string, ghost params: Params) returns (out: Outcome)
      modifies this`noThinking, this`sent, this`acquires, this`answers
      ensures End(out, noThinking, sent, acquires)
           == Ends(cfg, up, Turn(requested, 0, 0, old(noThinking), old(sent), old(acquires)))
      ensures sent <= old(sent) + Max(0, cfg.retries) + SPARE_REQUESTS
      ensures out.Answer? ==> out.model == requested || (CanFall(cfg, requested) && out.model == cfg.light)
      ensures answers == old(answers) + if out.Answer? then {(Key(out.model, prompt, params), out.text)} else {}
    {
      var model: Model, retry: nat, overloaded: nat := requested, 0, 0;
      var over := false;
      ghost var start := Turn(requested, 0, 0, noThinking, sent, acquires);
      ghost var t := start;
      CallIsBounded(cfg, up, start);
      out := QuotaExhausted;
      while !over
        invariant t.retry <= Max(0, cfg.retries) && Ends(cfg, up, start) == Ends(cfg, up, t)
        invariant if over then Ends(cfg, up, t) == End(out, noThinking, sent, acquires)
                  else t == Turn(model, retry, overloaded, noThinking, sent, acquires)
        invariant answers == old(answers) + if over then Said(out, prompt, params) else {}
        decreases Left(cfg, t), CanFall(cfg, t.model), !over
      {
        TakesTurn(cfg, up, t);
        ghost var next := Next(cfg, up, t);
        over, out, model, retry, overloaded := TakeTurn(model, retry, overloaded, prompt, params);
        if next.Go? { t := next.turn; }
      }
    }

    ghost function Said(out: Outcome, prompt: string, params: Params): set<(Key, string)> {
      if out.Answer? then {(Key(out.model, prompt, params), out.text)} else {}
    }

    /** One turn of the loop of _call: a request, unless the daily cap is reached. */
    method TakeTurn(model0: Model, retry0: nat, overloaded0: nat, ghost prompt: string, ghost params: Params)
      returns (over: bool, out: Outcome, model: Model, retry: nat, overloaded: nat)
      modifies this`noThinking, this`sent, this`acquires, this`answers
      ensures Next(cfg, up, Turn(model0, retry0, overloaded0, old(noThinking), old(sent), old(acquires)))
           == if over then Over(End(out, noThinking, sent, acquires))
              else Go(Turn(model, retry, overloaded, noThinking, sent, acquires))
      ensures answers == old(answers) + if over then Said(out, prompt, params) else {}
    {
      over, out, model, retry, overloaded := false, QuotaExhausted, model0, retry0, overloaded0;
      acquires := acquires + 1;
      if up.capped(acquires, model) {
        if CanFall(cfg, model) { model := cfg.light; } else { over := true; }
        return;
      }
      var reply := up.reply(sent, model, model !in noThinking);
      sent := sent + 1;
      match reply
      case Text(text) =>
        answers := answers + {(Key(model, prompt, params), text)};
        over, out := true, Answer(text, model);
      case Error(e) =>
        over, out, model, retry, overloaded := HandleError(e, model, retry, overloaded);
    }

    /** The except branch of _call. */
    method HandleError(e: Failure, model0: Model, retry0: nat, overloaded0: nat)
      returns (over: bool, out: Outcome, model: Model, retry: nat, overloaded: nat)
      modifies this`noThinking
      ensures AfterError(cfg, Turn(model0, retry0, overloaded0, old(noThinking), sent, acquires), e)
           == if over then Over(End(out, noThinking, sent, acquires))
              else Go(Turn(model, retry, overloaded, noThinking, sent, acquires))
      ensures !out.Answer?
    {
      over, out, model, retry, overloaded := false, Failed(e), model0, retry0, overloaded0;
      if model !in noThinking && e.thinkingRejected {
        noThinking := noThinking + {model};
        return;
      }
      if e.overloaded { overloaded := overloaded + 1; }
      if (overloaded > cfg.fallbackAfter503 || e.dailyQuota) && CanFall(cfg, model) {
        model, overloaded := cfg.light, 0;
      } else if e.dailyQuota {
        over, out := true, QuotaExhausted;
      } else if e.retryable && retry < cfg.retries {
        retry := retry + 1;
      } else {
        over := true;
      }
    }

    /** generate */
    method Generate(prompt: string, model: Model, params: Params) returns (result: Generated)
      requires CacheOk()
      modifies this
      ensures CacheOk() && old(answers) <= answers
      ensures sent <= old(sent) + (if params.schema.Some? then 2 else 1) * (Max(0, cfg.retries) + SPARE_REQUESTS)
      ensures result.Good? ==>
                && (Key(result.model, prompt, params), result.text) in answers
                && (result.model == model || (CanFall(cfg, model) && result.model == cfg.light))
                && (params.schema.Some? ==> valid(params.schema.value, result.text))
      ensures var key := Key(model, prompt, params);
              && (key in old(cache) ==>
                    result == Good(old(cache)[key], model, true) && sent == old(sent) && cache == old(cache))
              && (result.Good? && !result.cached ==>
                    cache == if result.model == model then old(cache)[key := result.text] else old(cache))
              && (!result.Good? ==> cache == old(cache))
      ensures result == Invalid ==> params.schema.Some?
    {
      var key := Key(model, prompt, params);
      if key in cache { return Good(cache[key], model, true); }
      var attempts := if params.schema.Some? then 2 else 1;
      for i := 0 to attempts
        invariant CacheOk() && cache == old(cache) && old(answers) <= answers
        invariant params.schema.None? ==> i == 0
        invariant sent <= old(sent) + i * (Max(0, cfg.retries) + SPARE_REQUESTS)
      {
        var out := Call(model, prompt, params);
        if !out.Answer? { return NoAnswer(out); }
        if params.schema.None? || valid(params.schema.value, out.text) {
          if out.model == model { cache := cache[key := out.text]; }  // never under a model that did not answer
          return Good(out.text, out.model, false);
        }
      }
      return Invalid;
    }

    /** Entries expire. */
    method Expire(key: Key)
      requires CacheOk()
      modifies this`cache
      ensures CacheOk() && cache == old(cache) - {key}
    {
      cache := cache - {key};
    }
  }
}
