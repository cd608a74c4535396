/**
 * AI credits: the wallet operations of apps/api/src/modules/ai/ai.repository.ts, the reserve, call,
 * refund or log sequence of apps/api/src/modules/ai/ai.service.ts, and the grants of billing, in
 * every interleaving. Each statement on the wallet row is one step.
 */
module CreditWallet {
  import opened Optional

  datatype Wallet = Wallet(balance: int, granted: int, consumed: int)

  /** What became of a request's reserved credits. */
  datatype Stage = InFlight | Logged | Refunded | Lost

  datatype Request = Request(cost: nat, stage: Stage)

  /** The wallet row, the usage log, and every request that reserved credits so far. */
  datatype State = State(wallet: Option<Wallet>, logs: seq<nat>, requests: seq<Request>)

  datatype Action =
    | CreateWallet(initial: nat)  // createOrGetWallet, or onboarding
    | Grant(credits: nat)         // a settled order
    | Reserve(cost: nat)
    | Refund(id: nat)             // the provider failed
    | Log(id: nat)                // the provider answered
    | Lose(id: nat)               // a crash, or the refund or the log itself failed

  /** The upsert of a settled order. */
  function Granted(w: Option<Wallet>, credits: nat): Wallet {
    match w
    case None => Wallet(credits, credits, 0)
    case Some(w) => w.(balance := w.balance + credits, granted := w.granted + credits)
  }

  function Take(w: Wallet, credits: int): Wallet {
    w.(balance := w.balance - credits, consumed := w.consumed + credits)
  }

  predicate IsInFlight(s: State, id: nat) {
    s.wallet.Some? && id < |s.requests| && s.requests[id].stage == InFlight
  }

  predicate Enabled(s: State, x: Action) {
    match x
    case CreateWallet(_) => s.wallet.None?
    case Grant(credits) => credits > 0
    case Reserve(cost) => s.wallet.Some? && s.wallet.value.balance >= cost
    case Refund(id) => IsInFlight(s, id)
    case Log(id) => IsInFlight(s, id)
    case Lose(id) => IsInFlight(s, id)
  }

  function Moved(s: State, id: nat, stage: Stage): seq<Request>
    requires id < |s.requests|
  {
    s.requests[id := s.requests[id].(stage := stage)]
  }

  function Apply(s: State, x: Action): State
    requires Enabled(s, x)
  {
    match x
    case CreateWallet(n) => s.(wallet := Some(Wallet(n, n, 0)))
    case Grant(credits) => s.(wallet := Some(Granted(s.wallet, credits)))
    case Reserve(cost) =>
      s.(wallet := Some(Take(s.wallet.value, cost)), requests := s.requests + [Request(cost, InFlight)])
    case Refund(id) =>
      var cost: int := s.requests[id].cost;
      s.(wallet := Some(Take(s.wallet.value, -cost)), requests := Moved(s, id, Refunded))
    case Log(id) => s.(logs := s.logs + [s.requests[id].cost], requests := Moved(s, id, Logged))
    case Lose(id) => s.(requests := Moved(s, id, Lost))
  }

  ghost predicate IsRun(states: seq<State>, actions: seq<Action>) {
    && |states| == |actions| + 1
    && states[0] == State(None, [], [])
    && (forall i :: 0 <= i < |actions| ==>
          Enabled(states[i], actions[i]) && states[i + 1] == Apply(states[i], actions[i]))
  }

  // ---------- Conservation ----------

  /** The credits of all requests at this stage. */
  function CostOf(requests: seq<Request>, stage: Stage): nat {
    if requests == [] then 0
    else (if requests[0].stage == stage then requests[0].cost else 0) + CostOf(requests[1..], stage)
  }

  function LoggedCredits(logs: seq<nat>): nat {
    if logs == [] then 0 else logs[0] + LoggedCredits(logs[1..])
  }

  /** Everything that was ever put into the wallet. */
  function GrantedBy(actions: seq<Action>): nat {
    if actions == [] then 0
    else
      var last := actions[|actions| - 1];
      GrantedBy(actions[..|actions| - 1]) +
      if last.CreateWallet? then last.initial else if last.Grant? then last.credits else 0
  }

  ghost predicate Conserved(s: State) {
    && (s.wallet.None? ==> s.logs == [] && s.requests == [])
    && LoggedCredits(s.logs) == CostOf(s.requests, Logged)
    && (s.wallet.Some? ==>
          && s.wallet.value.balance == s.wallet.value.granted - s.wallet.value.consumed
          && s.wallet.value.balance >= 0
          && s.wallet.value.consumed == LoggedCredits(s.logs) + CostOf(s.requests, InFlight) + CostOf(s.requests, Lost))
  }

  lemma {:induction false} CostOfAppend(requests: seq<Request>, r: Request, stage: Stage)
    ensures CostOf(requests + [r], stage) == CostOf(requests, stage) + if r.stage == stage then r.cost else 0
  {
    if requests != [] {
      assert (requests + [r])[1..] == requests[1..] + [r];
      CostOfAppend(requests[1..], r, stage);
    }
  }

  lemma {:induction false} CostOfMoved(requests: seq<Request>, id: nat, to: Stage, stage: Stage)
    requires id < |requests|
    ensures CostOf(requests[id := requests[id].(stage := to)], stage) ==
            CostOf(requests, stage) - (if requests[id].stage == stage then requests[id].cost else 0)
            + if to == stage then requests[id].cost else 0
  {
    if id == 0 {
      assert requests[id := requests[id].(stage := to)][1..] == requests[1..];
    } else {
      assert requests[id := requests[id].(stage := to)][1..] == requests[1..][id - 1 := requests[id].(stage := to)];
      CostOfMoved(requests[1..], id - 1, to, stage);
    }
  }

  lemma {:induction false} LoggedAppend(logs: seq<nat>, n: nat)
    ensures LoggedCredits(logs + [n]) == LoggedCredits(logs) + n
  {
    if logs != [] {
      assert (logs + [n])[1..] == logs[1..] + [n];
      LoggedAppend(logs[1..], n);
    }
  }

  lemma ConservedNext(s: State, x: Action)
    requires Conserved(s) && Enabled(s, x)
    ensures Conserved(Apply(s, x))
  {
    match x
    case Reserve(cost) =>
      CostOfAppend(s.requests, Request(cost, InFlight), InFlight);
      CostOfAppend(s.requests, Request(cost, InFlight), Logged);
      CostOfAppend(s.requests, Request(cost, InFlight), Lost);
    case Refund(id) => AllMoved(s.requests, id, Refunded);
    case Log(id) =>
      AllMoved(s.requests, id, Logged);
      LoggedAppend(s.logs, s.requests[id].cost);
    case Lose(id) => AllMoved(s.requests, id, Lost);
    case _ =>
  }

  lemma AllMoved(requests: seq<Request>, id: nat, to: Stage)
    requires id < |requests| && requests[id].stage == InFlight && to != InFlight
    ensures var after := requests[id := requests[id].(stage := to)];
            && CostOf(after, InFlight) == CostOf(requests, InFlight) - requests[id].cost
            && CostOf(after, Logged) == CostOf(requests, Logged) + (if to == Logged then requests[id].cost else 0)
            && CostOf(after, Lost) == CostOf(requests, Lost) + (if to == Lost then requests[id].cost else 0)
  {
    CostOfMoved(requests, id, to, InFlight);
    CostOfMoved(requests, id, to, Logged);
    CostOfMoved(requests, id, to, Lost);
  }

  /**
   * In every interleaving: balance = allocated - consumed >= 0; consumed is the logged usage, the
   * reservations in flight and those lost, so a refunded one costs nothing; and allocated is all
   * that was ever granted.
   */
  lemma {:induction false} CreditsAreConserved(states: seq<State>, actions: seq<Action>, i: nat)
    requires IsRun(states, actions) && i < |states|
    ensures Conserved(states[i])
    ensures if states[i].wallet.Some? then states[i].wallet.value.granted == GrantedBy(actions[..i])
            else GrantedBy(actions[..i]) == 0
    ensures states[i].wallet.Some? ==>
              states[i].wallet.value.balance ==
              GrantedBy(actions[..i]) - LoggedCredits(states[i].logs) - CostOf(states[i].requests, InFlight)
              - CostOf(states[i].requests, Lost)
  {
    if i > 0 {
      CreditsAreConserved(states, actions, i - 1);
      ConservedNext(states[i - 1], actions[i - 1]);
      assert actions[..i][..i - 1] == actions[..i - 1];
    }
  }

  /**
   * A request keeps its cost, and once it is no longer in flight nothing about it changes: it is
   * logged, refunded or lost once.
   */
  lemma {:induction false} SettledForGood(states: seq<State>, actions: seq<Action>, i: nat, j: nat, id: nat)
    requires IsRun(states, actions) && i <= j < |states| && id < |states[i].requests|
    ensures id < |states[j].requests| && states[j].requests[id].cost == states[i].requests[id].cost
    ensures states[i].requests[id].stage != InFlight ==> states[j].requests[id] == states[i].requests[id]
  {
    if i < j {
      SettledForGood(states, actions, i, j - 1, id);
    }
  }

  // ---------- The operations as they run ----------

  /** What the provider call of a completion came to, and whether the writes after it worked. */
  datatype Provider = Answers(logged: bool) | Fails(refunded: bool)

  datatype Completion = Cached | Insufficient | Completed(remaining: int) | ProviderFailed | NotLogged

  class AiWallet {
    var wallet: Option<Wallet>
    var logs: seq<nat>
    ghost var requests: seq<Request>
    /** How often the provider was called. */
    ghost var calls: nat

    constructor ()
      ensures View() == State(None, [], []) && calls == 0
    {
      wallet, logs, requests, calls := None, [], [], 0;
    }

    ghost function View(): State
      reads this
    {
      State(wallet, logs, requests)
    }

    method CreateOrGetWallet(initial: nat) returns (w: Wallet)
      modifies this`wallet
      ensures View() == if old(wallet).None? then Apply(old(View()), CreateWallet(initial)) else old(View())
      ensures wallet == Some(w)
    {
      if wallet.None? {
        wallet := Some(Wallet(initial, initial, 0));
      }
      w := wallet.value;
    }

    /** The conditional decrement; the row it returns is read afterwards. */
    method ReserveCredits(credits: nat) returns (updated: Option<Wallet>)
      modifies this`wallet, this`requests
      ensures updated.Some? <==> old(wallet).Some? && old(wallet).value.balance >= credits
      ensures updated.Some? ==> View() == Apply(old(View()), Reserve(credits)) && updated == wallet
      ensures updated.None? ==> View() == old(View())
    {
      if wallet.None? || wallet.value.balance < credits {
        return None;
      }
      var w := wallet.value;
      wallet := Some(w.(balance := w.balance - credits, consumed := w.consumed + credits));
      requests := requests + [Request(credits, InFlight)];
      updated := wallet;
    }

    method RefundCredits(credits: nat, ghost id: nat)
      requires IsInFlight(View(), id) && requests[id].cost == credits
      modifies this`wallet, this`requests
      ensures View() == Apply(old(View()), Refund(id))
    {
      var w := wallet.value;
      wallet := Some(w.(balance := w.balance + credits, consumed := w.consumed - credits));
      requests := Moved(View(), id, Refunded);
    }

    method LogUsage(credits: nat, ghost id: nat)
      requires IsInFlight(View(), id) && requests[id].cost == credits
      modifies this`logs, this`requests
      ensures View() == Apply(old(View()), Log(id))
    {
      logs := logs + [credits];
      requests := Moved(View(), id, Logged);
    }

    /** Asks the provider: foreign code. */
    method CallProvider(provider: Provider) returns (answered: bool)
      modifies this`calls
      ensures calls == old(calls) + 1 && answered == provider.Answers?
    {
      calls := calls + 1;
      answered := provider.Answers?;
    }

    /** `generateCompletion`, when nothing else runs in between: the provider is only called on reserved credits. */
    method GenerateCompletion(cached: string, cost: nat, provider: Provider) returns (r: Completion)
      modifies this
      ensures View() == Complete(old(View()), cached, cost, provider).0
      ensures r == Complete(old(View()), cached, cost, provider).1
      ensures calls == old(calls) + if r.Cached? || r.Insufficient? then 0 else 1
    {
      ghost var id := |requests|;
      var w := CreateOrGetWallet(100);
      if cached != "" {
        return Cached;
      }
      var updated := ReserveCredits(cost);
      if updated.None? {
        return Insufficient;
      }
      var answered := CallProvider(provider);
      if !answered {
        if provider.refunded {
          RefundCredits(cost, id);
        } else {
          requests := Moved(View(), id, Lost);
        }
        return ProviderFailed;
      }
      if provider.logged {
        LogUsage(cost, id);
        return Completed(updated.value.balance);
      }
      requests := Moved(View(), id, Lost);
      r := NotLogged;
    }
  }

  /** The steps one completion takes. */
  ghost function Complete(s: State, cached: string, cost: nat, provider: Provider): (State, Completion) {
    var s1 := if s.wallet.None? then Apply(s, CreateWallet(100)) else s;
    if cached != "" then (s1, Cached)
    else if !Enabled(s1, Reserve(cost)) then (s1, Insufficient)
    else
      var s2, id := Apply(s1, Reserve(cost)), |s1.requests|;
      match provider
      case Fails(refunded) => (Apply(s2, if refunded then Refund(id) else Lose(id)), ProviderFailed)
      case Answers(logged) =>
        if logged then (Apply(s2, Log(id)), Completed(s2.wallet.value.balance))
        else (Apply(s2, Lose(id)), NotLogged)
  }

  /**
   * A cache hit, a refusal and a refunded failure cost nothing; an answer costs exactly `cost`, all
   * of it logged; only a failed refund or a failed log entry takes credits without one.
   */
  lemma CompletionCosts(s: State, cached: string, cost: nat, provider: Provider)
    requires Conserved(s)
    ensures var (t, r) := Complete(s, cached, cost, provider);
            var before := if s.wallet.Some? then s.wallet.value.balance else 100;
            && Conserved(t) && t.wallet.Some?
            && (r == Cached <==> cached != "")
            && (r == Insufficient <==> cached == "" && before < cost)
            && (r == ProviderFailed <==> cached == "" && before >= cost && provider.Fails?)
            && (r.Completed? <==> cached == "" && before >= cost && provider.Answers? && provider.logged)
            && (r == Cached || r == Insufficient || (r == ProviderFailed && provider.refunded) ==>
                  t.wallet.value.balance == before && t.logs == s.logs)
            && (r.Completed? ==> r.remaining == t.wallet.value.balance == before - cost && t.logs == s.logs + [cost])
            && (r == NotLogged || (r == ProviderFailed && !provider.refunded) ==>
                  t.wallet.value.balance == before - cost && t.logs == s.logs)
  {
    var s1 := if s.wallet.None? then Apply(s, CreateWallet(100)) else s;
    if cached == "" && Enabled(s1, Reserve(cost)) {
      var s2, id := Apply(s1, Reserve(cost)), |s1.requests|;
      ConservedNext(s1, Reserve(cost));
      match provider
      case Fails(refunded) => ConservedNext(s2, if refunded then Refund(id) else Lose(id));
      case Answers(logged) => ConservedNext(s2, if logged then Log(id) else Lose(id));
    }
  }
}
