/** The hand-over of `keera login` (internal/control/auth.go, cliauth.go, passkeys.go and password.go; the store's part is
internal/store/session.go and internal/store/cli.go).

A terminal starts a sign-in, a browser completes it and carries a one-time code back, and the code is redeemed for a
token. `Store` holds what these requests read and write, and `Next` is one step of any of them; requests interleave and
stop anywhere. `OneCodeOneToken` and `TokenIsOfItsFlow` hold in every state that can be reached.
*/
module CliLogin {
  import opened Text

  /** `redirect`, `challenge` and `echo` are the terminal's, and empty for a sign-in of the panel. */
  datatype Flow = Flow(provider: string, redirect: string, challenge: string, echo: string)

  datatype Code = Code(person: string, challenge: string)

  // What a sign-in is started with.

  datatype Handshake = Handshake(redirect: string, challenge: string, echo: string)

  function Trimmed(h: Handshake): Handshake { Handshake(Trim(h.redirect), Trim(h.challenge), Trim(h.echo)) }

  predicate IsNone(h: Handshake) { h == Handshake("", "", "") }

  /** `g` is what was asked for, with an address that a hand-over may go to and a challenge of the right shape. */
  predicate Good(destination: string -> Option<string>, valid: string -> bool, asked: Handshake, g: Handshake) {
    && destination(asked.redirect) == Some(g.redirect)
    && g.challenge == asked.challenge && valid(g.challenge)
    && g.echo == asked.echo && g.echo != "" && |g.echo| <= 128
  }

  /** `destination` says where a hand-over may go, and `valid` which challenges have the right shape. */
  function CliLoginFrom(destination: string -> Option<string>, valid: string -> bool, asked: Handshake): (h: Option<Handshake>)
    ensures forall g :: h == Some(g) <==>
              if IsNone(Trimmed(asked)) then IsNone(g) else Good(destination, valid, Trimmed(asked), g)
  {
    var redirect, challenge, echo := Trim(asked.redirect), Trim(asked.challenge), Trim(asked.echo);
    if redirect == "" && challenge == "" && echo == "" then Some(Handshake("", "", ""))
    else match destination(redirect)
      case None => None
      case Some(to) =>
        if !valid(challenge) || echo == "" || |echo| > 128 then None else Some(Handshake(to, challenge, echo))
  }

  // What the store does in one statement.

  function Take<T>(rows: map<string, T>, key: string): (map<string, T>, Option<T>) {
    (rows - {key}, if key in rows then Some(rows[key]) else None)
  }

  /** `hash` is how codes are stored, and `challengeOf` what a verifier must hash to. */
  class Store {
    var flows: map<string, Flow>
    var codes: map<string, Code>
    var tokens: map<string, string>

    constructor ()
      ensures flows == map[] && codes == map[] && tokens == map[]
    {
      flows, codes, tokens := map[], map[], map[];
    }

    method TakeLoginFlow(state: string) returns (flow: Option<Flow>)
      modifies this`flows
      ensures (flows, flow) == Take(old(flows), state)
    {
      flow := if state in flows then Some(flows[state]) else None;
      flows := flows - {state};
    }

    method TakeCLICode(id: string) returns (code: Option<Code>)
      modifies this`codes
      ensures (codes, code) == Take(old(codes), id)
    {
      code := if id in codes then Some(codes[id]) else None;
      codes := codes - {id};
    }

    method CLIHandOver(flow: Flow, person: string, hash: string -> string, code: string) returns (to: (string, string, string))
      modifies this`codes
      ensures codes == old(codes)[hash(code) := Code(person, flow.challenge)]
      ensures to == (flow.redirect, code, flow.echo)
    {
      codes := codes[hash(code) := Code(person, flow.challenge)];
      to := (flow.redirect, code, flow.echo);
    }

    /** Using a code up, whoever presents it, and granting a token only for the verifier of its challenge. */
    method CLIToken(hash: string -> string, challengeOf: string -> string, code: string, verifier: string, token: string)
      returns (granted: bool)
      modifies this
      ensures flows == old(flows)
      ensures granted <==> code != "" && verifier != "" && hash(code) in old(codes)
                           && challengeOf(verifier) == old(codes)[hash(code)].challenge
      ensures codes == if code == "" || verifier == "" then old(codes) else old(codes) - {hash(code)}
      ensures tokens == if granted then old(tokens)[token := old(codes)[hash(code)].person] else old(tokens)
    {
      if code == "" || verifier == "" {
        return false;
      }
      var taken := TakeCLICode(hash(code));
      if taken.None? || challengeOf(verifier) != taken.value.challenge {
        return false;
      }
      tokens := tokens[token := taken.value.person];
      granted := true;
    }
  }

  // Requests side by side.

  /** What became of a flow that was started: which request took it, who completed it, and the code it yielded. */
  datatype FlowLife = FlowLife(flow: Flow, taker: Option<nat>, person: Option<string>, code: Option<string>)

  /** What became of a code: the flow it is of, its text, where it was handed to, and the request that took it. */
  datatype CodeLife = CodeLife(
    state: string, text: string, row: Code, to: string, taker: Option<nat>, token: Option<string>)

  /** What a token was granted for. */
  datatype Grant = Grant(id: string, presented: string, verifier: string, person: string)

  datatype Request =
    /** It took the flow, and the directory or the passkey may have said who this is. */
    | Signing(state: string, flow: Flow, person: Option<string>)
    /** It read the flow for a password, and has not taken it yet. */
    | Asking(state: string, person: Option<string>)
    /** It took the code. */
    | Redeeming(id: string, code: Code, presented: string, verifier: string)
    | Ended

  /** The store's rows, the requests under way, and what became of everything there ever was. */
  datatype State = State(
    flows: map<string, Flow>, codes: map<string, Code>, tokens: map<string, string>, requests: map<nat, Request>,
    started: map<string, FlowLife>, issued: map<string, CodeLife>, granted: map<string, Grant>)

  const EMPTY := State(map[], map[], map[], map[], map[], map[], map[])

  datatype Action =
    | Start(state: string, flow: Flow)
    | Callback(r: nat, state: string, cookie: string)
    | Passkey(r: nat, state: string)
    | Password(r: nat, state: string, provider: string)
    | Identify(r: nat, person: string)
    | TakeNow(r: nat)
    | HandOver(r: nat, code: string)
    | Redeem(r: nat, code: string, verifier: string)
    | GrantToken(r: nat, token: string)
    | Stop(r: nat)
    | Expire(state: string, code: string, token: string)

  datatype Hashes = Hashes(hash: string -> string, challengeOf: string -> string)

  function End(s: State, r: nat): State { s.(requests := s.requests[r := Ended]) }

  function TakeFlow(s: State, r: nat, state: string, person: Option<string>): State {
    var (flows, flow) := Take(s.flows, state);
    if flow.None? then End(s, r).(flows := flows)
    else s.(flows := flows,
            requests := s.requests[r := Signing(state, flow.value, person)],
            started := s.started[state := FlowLife(flow.value, Some(r), person, None)])
  }

  function IdentifyAs(s: State, r: nat, person: string): State
    requires r in s.requests
  {
    match s.requests[r]
    case Signing(state, flow, None) =>
      s.(requests := s.requests[r := Signing(state, flow, Some(person))],
         started := s.started[state := FlowLife(flow, Some(r), Some(person), None)])
    case Asking(state, None) => s.(requests := s.requests[r := Asking(state, Some(person))])
    case _ => s
  }

  function HandOverBy(h: Hashes, s: State, r: nat, code: string): State
    requires r in s.requests && h.hash(code) !in s.issued
  {
    match s.requests[r]
    case Signing(state, flow, Some(person)) =>
      if flow.redirect == "" then s
      else
        var id, row := h.hash(code), Code(person, flow.challenge);
        s.(codes := s.codes[id := row],
           requests := s.requests[r := Ended],
           started := s.started[state := FlowLife(flow, Some(r), Some(person), Some(id))],
           issued := s.issued[id := CodeLife(state, code, row, flow.redirect, None, None)])
    case _ => s
  }

  function RedeemBy(h: Hashes, s: State, r: nat, code: string, verifier: string): State {
    var id := h.hash(code);
    var (codes, taken) := Take(s.codes, id);
    if taken.None? || id !in s.issued then End(s, r).(codes := codes)
    else s.(codes := codes,
            requests := s.requests[r := Redeeming(id, taken.value, code, verifier)],
            issued := s.issued[id := s.issued[id].(taker := Some(r))])
  }

  function GrantBy(h: Hashes, s: State, r: nat, token: string): State
    requires r in s.requests
  {
    match s.requests[r]
    case Redeeming(id, code, presented, verifier) =>
      if h.challengeOf(verifier) != code.challenge || id !in s.issued then End(s, r)
      else s.(tokens := s.tokens[token := code.person],
              requests := s.requests[r := Ended],
              issued := s.issued[id := s.issued[id].(token := Some(token))],
              granted := s.granted[token := Grant(id, presented, verifier, code.person)])
    case _ => s
  }

  /** One step of a request. Random values are new, and a step that is not a request's next one does nothing. */
  function Next(h: Hashes, s: State, a: Action): State {
    match a
    case Start(state, flow) =>
      if state in s.started then s
      else s.(flows := s.flows[state := flow], started := s.started[state := FlowLife(flow, None, None, None)])
    case Callback(r, state, cookie) =>
      if r in s.requests || state == "" || cookie != state then s else TakeFlow(s, r, state, None)
    case Passkey(r, state) =>
      if r in s.requests then s
      else if state in s.flows && s.flows[state].provider != "passkey" then End(TakeFlow(s, r, state, None), r)
      else TakeFlow(s, r, state, None)
    case Password(r, state, provider) =>
      if r in s.requests || state !in s.flows || s.flows[state].provider != provider then s
      else s.(requests := s.requests[r := Asking(state, None)])
    case Identify(r, person) => if r in s.requests then IdentifyAs(s, r, person) else s
    case TakeNow(r) =>
      if r in s.requests && s.requests[r].Asking? && s.requests[r].person.Some?
      then TakeFlow(s, r, s.requests[r].state, s.requests[r].person) else s
    case HandOver(r, code) => if r in s.requests && h.hash(code) !in s.issued then HandOverBy(h, s, r, code) else s
    case Redeem(r, code, verifier) =>
      if r in s.requests || code == "" || verifier == "" then s else RedeemBy(h, s, r, code, verifier)
    case GrantToken(r, token) => if r in s.requests && token !in s.granted then GrantBy(h, s, r, token) else s
    case Stop(r) => if r in s.requests then End(s, r) else s
    case Expire(state, code, token) =>
      s.(flows := s.flows - {state}, codes := s.codes - {code}, tokens := s.tokens - {token})
  }

  function Run(h: Hashes, actions: seq<Action>): State {
    if actions == [] then EMPTY else Next(h, Run(h, actions[..|actions| - 1]), actions[|actions| - 1])
  }

  // What every step keeps.

  /** A flow is open, or one request has it, or one code came of it, or nothing will. */
  ghost predicate FlowsInv(flows: map<string, Flow>, started: map<string, FlowLife>) {
    forall k :: k in flows ==> k in started && started[k] == FlowLife(flows[k], None, None, None)
  }

  ghost predicate SigningInv(requests: map<nat, Request>, started: map<string, FlowLife>) {
    forall r :: r in requests && requests[r].Signing? ==>
      var q := requests[r];
      q.state in started && started[q.state] == FlowLife(q.flow, Some(r), q.person, None)
  }

  /** A code waits, or one request has it, or one token came of it, or nothing will. */
  ghost predicate CodesInv(codes: map<string, Code>, issued: map<string, CodeLife>) {
    forall c :: c in codes ==>
      c in issued && issued[c].row == codes[c] && issued[c].taker == None && issued[c].token == None
  }

  ghost predicate RedeemingInv(h: Hashes, requests: map<nat, Request>, issued: map<string, CodeLife>) {
    forall r :: r in requests && requests[r].Redeeming? ==>
      var q := requests[r];
      && q.id in issued && issued[q.id].row == q.code && q.id == h.hash(q.presented)
      && issued[q.id].taker == Some(r) && issued[q.id].token == None
  }

  ghost predicate IssuedInv(h: Hashes, issued: map<string, CodeLife>, started: map<string, FlowLife>) {
    forall c :: c in issued ==>
      var i := issued[c];
      && i.state in started && started[i.state].code == Some(c) && c == h.hash(i.text)
      && started[i.state].person == Some(i.row.person)
      && i.to == started[i.state].flow.redirect && i.row.challenge == started[i.state].flow.challenge
  }

  ghost predicate GrantedInv(h: Hashes, granted: map<string, Grant>, issued: map<string, CodeLife>) {
    forall t :: t in granted ==>
      var g := granted[t];
      && g.id in issued && issued[g.id].token == Some(t) && issued[g.id].taker.Some?
      && issued[g.id].row == Code(g.person, h.challengeOf(g.verifier)) && g.id == h.hash(g.presented)
  }

  ghost predicate TokensInv(tokens: map<string, string>, granted: map<string, Grant>) {
    forall t :: t in tokens ==> t in granted && tokens[t] == granted[t].person
  }

  ghost predicate Inv(h: Hashes, s: State) {
    && FlowsInv(s.flows, s.started) && SigningInv(s.requests, s.started)
    && CodesInv(s.codes, s.issued) && RedeemingInv(h, s.requests, s.issued)
    && IssuedInv(h, s.issued, s.started)
    && GrantedInv(h, s.granted, s.issued) && TokensInv(s.tokens, s.granted)
  }

  lemma EndKeepsInv(h: Hashes, s: State, r: nat)
    requires Inv(h, s)
    ensures Inv(h, End(s, r))
  {}

  lemma TakeKeepsInv(h: Hashes, s: State, r: nat, state: string, person: Option<string>)
    requires Inv(h, s)
    ensures Inv(h, TakeFlow(s, r, state, person))
  {
    if state !in s.flows { EndKeepsInv(h, s, r); }
  }

  lemma PutSigning(requests: map<nat, Request>, started: map<string, FlowLife>, r: nat, q: Request)
    requires SigningInv(requests, started) && !q.Signing?
    ensures SigningInv(requests[r := q], started)
  {}

  lemma PutRedeeming(h: Hashes, requests: map<nat, Request>, issued: map<string, CodeLife>, r: nat, q: Request)
    requires RedeemingInv(h, requests, issued) && !q.Redeeming?
    ensures RedeemingInv(h, requests[r := q], issued)
  {}

  /** The request that has a flow is the only one to change what becomes of it. */
  lemma SigningMoves(flows: map<string, Flow>, requests: map<nat, Request>, started: map<string, FlowLife>, r: nat,
                     person: Option<string>, code: Option<string>)
    requires FlowsInv(flows, started) && SigningInv(requests, started) && r in requests && requests[r].Signing?
    ensures var q := requests[r];
            var now := started[q.state := FlowLife(q.flow, Some(r), person, code)];
            && FlowsInv(flows, now)
            && SigningInv(requests[r := Ended], now)
            && (code == None ==> SigningInv(requests[r := Signing(q.state, q.flow, person)], now))
  {}

  lemma IssuedMoves(h: Hashes, issued: map<string, CodeLife>, started: map<string, FlowLife>, state: string, life: FlowLife)
    requires IssuedInv(h, issued, started) && state in started && started[state].code == None
    ensures IssuedInv(h, issued, started[state := life])
  {}

  lemma IdentifyKeepsInv(h: Hashes, s: State, r: nat, person: string)
    requires Inv(h, s) && r in s.requests
    ensures Inv(h, IdentifyAs(s, r, person))
  {
    match s.requests[r] {
      case Signing(state, flow, None) =>
        SigningMoves(s.flows, s.requests, s.started, r, Some(person), None);
        PutRedeeming(h, s.requests, s.issued, r, Signing(state, flow, Some(person)));
        IssuedMoves(h, s.issued, s.started, state, FlowLife(flow, Some(r), Some(person), None));
      case Asking(state, None) =>
        PutSigning(s.requests, s.started, r, Asking(state, Some(person)));
        PutRedeeming(h, s.requests, s.issued, r, Asking(state, Some(person)));
      case _ =>
    }
  }

  lemma NewCode(h: Hashes, s: State, id: string, life: CodeLife)
    requires CodesInv(s.codes, s.issued) && RedeemingInv(h, s.requests, s.issued) && GrantedInv(h, s.granted, s.issued)
    requires id !in s.issued && life.taker == None && life.token == None
    ensures CodesInv(s.codes[id := life.row], s.issued[id := life])
    ensures RedeemingInv(h, s.requests, s.issued[id := life]) && GrantedInv(h, s.granted, s.issued[id := life])
  {}

  lemma NewIssue(h: Hashes, issued: map<string, CodeLife>, started: map<string, FlowLife>, id: string, life: CodeLife)
    requires IssuedInv(h, issued, started) && id !in issued && id == h.hash(life.text)
    requires life.state in started && started[life.state].code == None
    requires life.to == started[life.state].flow.redirect && life.row.challenge == started[life.state].flow.challenge
    requires started[life.state].person == Some(life.row.person)
    ensures IssuedInv(h, issued[id := life], started[life.state := started[life.state].(code := Some(id))])
  {}

  lemma HandOverKeepsInv(h: Hashes, s: State, r: nat, code: string)
    requires Inv(h, s) && r in s.requests && h.hash(code) !in s.issued
    ensures Inv(h, HandOverBy(h, s, r, code))
  {
    match s.requests[r] {
      case Signing(state, flow, Some(person)) =>
        if flow.redirect != "" {
          var id := h.hash(code);
          var life := CodeLife(state, code, Code(person, flow.challenge), flow.redirect, None, None);
          SigningMoves(s.flows, s.requests, s.started, r, Some(person), Some(id));
          NewCode(h, s, id, life);
          PutRedeeming(h, s.requests, s.issued[id := life], r, Ended);
          NewIssue(h, s.issued, s.started, id, life);
        }
      case _ =>
    }
  }

  /** The request that has a code is the only one to change what becomes of it. */
  lemma CodeMoves(h: Hashes, s: State, id: string, taker: Option<nat>, token: Option<string>)
    requires CodesInv(s.codes, s.issued) && GrantedInv(h, s.granted, s.issued) && IssuedInv(h, s.issued, s.started)
    requires id in s.issued && id !in s.codes && s.issued[id].token == None
    ensures var now := s.issued[id := s.issued[id].(taker := taker, token := token)];
            CodesInv(s.codes, now) && GrantedInv(h, s.granted, now) && IssuedInv(h, now, s.started)
  {
    IssuedStays(h, s.issued, s.started, id, s.issued[id].(taker := taker, token := token));
    GrantedStays(h, s.granted, s.issued, id, s.issued[id].(taker := taker, token := token));
  }

  lemma IssuedStays(h: Hashes, issued: map<string, CodeLife>, started: map<string, FlowLife>, id: string, life: CodeLife)
    requires IssuedInv(h, issued, started) && id in issued
    requires life.state == issued[id].state && life.text == issued[id].text && life.row == issued[id].row && life.to == issued[id].to
    ensures IssuedInv(h, issued[id := life], started)
  {}

  lemma GrantedStays(h: Hashes, granted: map<string, Grant>, issued: map<string, CodeLife>, id: string, life: CodeLife)
    requires GrantedInv(h, granted, issued) && id in issued && issued[id].token == None
    ensures GrantedInv(h, granted, issued[id := life])
  {}

  lemma RedeemingMoves(h: Hashes, requests: map<nat, Request>, issued: map<string, CodeLife>, r: nat, id: string, life: CodeLife)
    requires RedeemingInv(h, requests, issued) && id in issued
    requires issued[id].taker == None || issued[id].taker == Some(r)
    ensures RedeemingInv(h, requests[r := Ended], issued[id := life])
  {}

  lemma PutTwice(requests: map<nat, Request>, r: nat, p: Request, q: Request)
    ensures requests[r := p][r := q] == requests[r := q]
  {}

  lemma RedeemKeepsInv(h: Hashes, s: State, r: nat, code: string, verifier: string)
    requires Inv(h, s) && r !in s.requests
    ensures Inv(h, RedeemBy(h, s, r, code, verifier))
  {
    var id := h.hash(code);
    if id in s.codes {
      RedeemTakes(h, s, r, Redeeming(id, s.codes[id], code, verifier));
    } else {
      EndKeepsInv(h, s, r);
      assert s.codes - {id} == s.codes;
    }
  }

  lemma RedeemTakes(h: Hashes, s: State, r: nat, q: Request)
    requires Inv(h, s) && q.Redeeming? && q.id in s.codes && q.code == s.codes[q.id] && q.id == h.hash(q.presented)
    ensures var life := s.issued[q.id].(taker := Some(r));
            Inv(h, s.(codes := s.codes - {q.id}, requests := s.requests[r := q], issued := s.issued[q.id := life]))
  {
    var life := s.issued[q.id].(taker := Some(r));
    CodeMoves(h, s.(codes := s.codes - {q.id}), q.id, Some(r), None);
    PutSigning(s.requests, s.started, r, q);
    RedeemingMoves(h, s.requests, s.issued, r, q.id, life);
    TakesCode(h, s.requests[r := Ended], s.issued[q.id := life], r, q);
    PutTwice(s.requests, r, Ended, q);
  }

  lemma TakesCode(h: Hashes, requests: map<nat, Request>, issued: map<string, CodeLife>, r: nat, q: Request)
    requires RedeemingInv(h, requests, issued) && r in requests && q.Redeeming?
    requires q.id in issued && issued[q.id].row == q.code && q.id == h.hash(q.presented)
    requires issued[q.id].taker == Some(r) && issued[q.id].token == None
    ensures RedeemingInv(h, requests[r := q], issued)
  {}

  lemma NewGrant(h: Hashes, granted: map<string, Grant>, issued: map<string, CodeLife>, token: string, g: Grant)
    requires GrantedInv(h, granted, issued) && token !in granted
    requires g.id in issued && issued[g.id].token == None && issued[g.id].taker.Some? && g.id == h.hash(g.presented)
    requires issued[g.id].row == Code(g.person, h.challengeOf(g.verifier))
    ensures GrantedInv(h, granted[token := g], issued[g.id := issued[g.id].(token := Some(token))])
  {}

  lemma GrantKeepsInv(h: Hashes, s: State, r: nat, token: string)
    requires Inv(h, s) && r in s.requests && token !in s.granted
    ensures Inv(h, GrantBy(h, s, r, token))
  {
    match s.requests[r] {
      case Redeeming(id, code, presented, verifier) =>
        if h.challengeOf(verifier) != code.challenge {
          EndKeepsInv(h, s, r);
        } else {
          var life := s.issued[id].(token := Some(token));
          CodeMoves(h, s, id, s.issued[id].taker, Some(token));
          PutSigning(s.requests, s.started, r, Ended);
          RedeemingMoves(h, s.requests, s.issued, r, id, life);
          NewGrant(h, s.granted, s.issued, token, Grant(id, presented, verifier, code.person));
          NewToken(s.tokens, s.granted, token, Grant(id, presented, verifier, code.person));
        }
      case _ =>
    }
  }

  lemma NewToken(tokens: map<string, string>, granted: map<string, Grant>, token: string, g: Grant)
    requires TokensInv(tokens, granted) && token !in granted
    ensures TokensInv(tokens[token := g.person], granted[token := g])
  {}

  lemma NextKeepsInv(h: Hashes, s: State, a: Action)
    requires Inv(h, s)
    ensures Inv(h, Next(h, s, a))
  {
    match a {
      case Callback(r, state, cookie) => TakeKeepsInv(h, s, r, state, None);
      case Passkey(r, state) =>
        TakeKeepsInv(h, s, r, state, None);
        EndKeepsInv(h, TakeFlow(s, r, state, None), r);
      case TakeNow(r) =>
        if r in s.requests && s.requests[r].Asking? { TakeKeepsInv(h, s, r, s.requests[r].state, s.requests[r].person); }
      case Identify(r, person) => if r in s.requests { IdentifyKeepsInv(h, s, r, person); }
      case HandOver(r, code) => if r in s.requests && h.hash(code) !in s.issued { HandOverKeepsInv(h, s, r, code); }
      case Redeem(r, code, verifier) => if r !in s.requests { RedeemKeepsInv(h, s, r, code, verifier); }
      case GrantToken(r, token) => if r in s.requests && token !in s.granted { GrantKeepsInv(h, s, r, token); }
      case Stop(r) => EndKeepsInv(h, s, r);
      case _ => StoreKeepsInv(h, s, a);
    }
  }

  lemma StoreKeepsInv(h: Hashes, s: State, a: Action)
    requires Inv(h, s) && (a.Start? || a.Password? || a.Expire?)
    ensures Inv(h, Next(h, s, a))
  {
    match a {
      case Password(r, state, provider) =>
        PutSigning(s.requests, s.started, r, Asking(state, None));
        PutRedeeming(h, s.requests, s.issued, r, Asking(state, None));
      case Start(state, flow) =>
        if state !in s.started { NewFlow(h, s.flows, s.requests, s.issued, s.started, state, flow); }
      case Expire(state, code, token) => ExpireKeepsInv(h, s, state, code, token);
    }
  }

  lemma NewFlow(h: Hashes, flows: map<string, Flow>, requests: map<nat, Request>, issued: map<string, CodeLife>,
                started: map<string, FlowLife>, state: string, flow: Flow)
    requires FlowsInv(flows, started) && SigningInv(requests, started) && IssuedInv(h, issued, started)
    requires state !in started
    ensures var now := started[state := FlowLife(flow, None, None, None)];
            FlowsInv(flows[state := flow], now) && SigningInv(requests, now) && IssuedInv(h, issued, now)
  {}

  lemma ExpireKeepsInv(h: Hashes, s: State, state: string, code: string, token: string)
    requires Inv(h, s)
    ensures Inv(h, Next(h, s, Expire(state, code, token)))
  {}

  lemma {:induction false} Reachable(h: Hashes, actions: seq<Action>)
    ensures Inv(h, Run(h, actions))
  {
    if actions != [] {
      Reachable(h, actions[..|actions| - 1]);
      NextKeepsInv(h, Run(h, actions[..|actions| - 1]), actions[|actions| - 1]);
    }
  }

  /** A started sign-in yields at most one code, and a code at most one token. */
  lemma OneCodeOneToken(h: Hashes, actions: seq<Action>)
    ensures var s := Run(h, actions);
            && (forall c, d :: c in s.issued && d in s.issued && s.issued[c].state == s.issued[d].state ==> c == d)
            && (forall t, u :: t in s.granted && u in s.granted && s.granted[t].id == s.granted[u].id ==> t == u)
  {
    Reachable(h, actions);
  }

  /** A token belongs to the person who completed the flow behind its code. It was granted for the very code which that
  flow was handed to at its own address, and for a verifier of the flow's challenge. */
  lemma TokenIsOfItsFlow(h: Hashes, actions: seq<Action>, token: string)
    requires token in Run(h, actions).tokens
    requires forall a, b :: h.hash(a) == h.hash(b) ==> a == b
    ensures var s := Run(h, actions);
            && token in s.granted && s.granted[token].id in s.issued
            && var g, i := s.granted[token], s.issued[s.granted[token].id];
            && i.state in s.started
            && s.started[i.state].person == Some(s.tokens[token])
            && h.challengeOf(g.verifier) == s.started[i.state].flow.challenge
            && i.to == s.started[i.state].flow.redirect
            && g.presented == i.text
  {
    Reachable(h, actions);
  }

  /** A sign-in that nothing disturbs hands a code over, */
  lemma UndisturbedHandsOver(h: Hashes, s: State, state: string, flow: Flow, r: nat, person: string, code: string)
    requires state !in s.started && state != "" && r !in s.requests
    requires h.hash(code) !in s.issued && flow.redirect != ""
    ensures var asked := Next(h, Next(h, s, Start(state, flow)), Callback(r, state, state));
            var handed := Next(h, Next(h, asked, Identify(r, person)), HandOver(r, code));
            && h.hash(code) in handed.codes && handed.codes[h.hash(code)] == Code(person, flow.challenge)
            && h.hash(code) in handed.issued
  {
    var asked := Next(h, Next(h, s, Start(state, flow)), Callback(r, state, state));
    assert asked.requests[r] == Signing(state, flow, None);
    var known := Next(h, asked, Identify(r, person));
    assert known.requests[r] == Signing(state, flow, Some(person));
  }

  /** and the code yields a token of who completed it. */
  lemma UndisturbedRedeems(h: Hashes, s: State, t: nat, code: string, verifier: string, token: string)
    requires h.hash(code) in s.codes && h.hash(code) in s.issued && t !in s.requests && token !in s.granted
    requires code != "" && verifier != "" && h.challengeOf(verifier) == s.codes[h.hash(code)].challenge
    ensures var done := Next(h, Next(h, s, Redeem(t, code, verifier)), GrantToken(t, token));
            token in done.tokens && done.tokens[token] == s.codes[h.hash(code)].person
  {
    var redeemed := Next(h, s, Redeem(t, code, verifier));
    assert redeemed.requests[t] == Redeeming(h.hash(code), s.codes[h.hash(code)], code, verifier);
  }

  /** So it does with a passkey, */
  lemma UndisturbedPasskey(h: Hashes, s: State, state: string, flow: Flow, r: nat, person: string, code: string)
    requires state !in s.started && r !in s.requests && flow.provider == "passkey"
    requires h.hash(code) !in s.issued && flow.redirect != ""
    ensures var asked := Next(h, Next(h, s, Start(state, flow)), Passkey(r, state));
            var handed := Next(h, Next(h, asked, Identify(r, person)), HandOver(r, code));
            h.hash(code) in handed.codes && handed.codes[h.hash(code)] == Code(person, flow.challenge)
  {
    var asked := Next(h, Next(h, s, Start(state, flow)), Passkey(r, state));
    assert asked.requests[r] == Signing(state, flow, None);
    var known := Next(h, asked, Identify(r, person));
    assert known.requests[r] == Signing(state, flow, Some(person));
  }

  /** and with a password, which takes the flow only once it is right: until then another try finds the flow. */
  lemma UndisturbedPassword(h: Hashes, s: State, state: string, flow: Flow, r: nat, person: string, code: string)
    requires state !in s.started && r !in s.requests
    requires h.hash(code) !in s.issued && flow.redirect != ""
    ensures var asked := Next(h, Next(h, s, Start(state, flow)), Password(r, state, flow.provider));
            var known := Next(h, asked, Identify(r, person));
            && state in known.flows && Next(h, asked, Stop(r)).flows == asked.flows == known.flows
            && var handed := Next(h, Next(h, known, TakeNow(r)), HandOver(r, code));
               && state !in handed.flows
               && h.hash(code) in handed.codes && handed.codes[h.hash(code)] == Code(person, flow.challenge)
  {
    var asked := Next(h, Next(h, s, Start(state, flow)), Password(r, state, flow.provider));
    assert asked.requests[r] == Asking(state, None) && asked.issued == s.issued;
    var known := Next(h, asked, Identify(r, person));
    assert known.requests[r] == Asking(state, Some(person)) && known.flows[state] == flow && known.issued == s.issued;
    TakesAndHandsOver(h, known, state, flow, r, person, code);
  }

  lemma TakesAndHandsOver(h: Hashes, s: State, state: string, flow: Flow, r: nat, person: string, code: string)
    requires state in s.flows && s.flows[state] == flow && r in s.requests && s.requests[r] == Asking(state, Some(person))
    requires h.hash(code) !in s.issued && flow.redirect != ""
    ensures var handed := Next(h, Next(h, s, TakeNow(r)), HandOver(r, code));
            && state !in handed.flows
            && h.hash(code) in handed.codes && handed.codes[h.hash(code)] == Code(person, flow.challenge)
  {
    var taken := Next(h, s, TakeNow(r));
    assert taken.requests[r] == Signing(state, flow, Some(person)) && taken.issued == s.issued;
  }

  /** A callback from another browser, or with another state, takes nothing. */
  lemma CallbackNeedsItsBrowser(h: Hashes, s: State, r: nat, state: string, cookie: string)
    requires cookie != state || state == ""
    ensures Next(h, s, Callback(r, state, cookie)) == s
  {}

  /** A passkey answers for no flow of another provider, though that is used up; a password not even that. */
  lemma OtherProvidersAreRefused(h: Hashes, s: State, r: nat, state: string, provider: string)
    requires r !in s.requests && state in s.flows
    ensures s.flows[state].provider != "passkey" ==>
              var now := Next(h, s, Passkey(r, state));
              now.requests == s.requests[r := Ended] && now.flows == s.flows - {state} && now.codes == s.codes
    ensures s.flows[state].provider != provider ==> Next(h, s, Password(r, state, provider)) == s
  {
    if s.flows[state].provider != "passkey" {
      PutTwice(s.requests, r, Signing(state, s.flows[state], None), Ended);
    }
  }

  /** A code that is presented with a wrong verifier is used up, and yields nothing. */
  lemma WrongVerifierYieldsNothing(h: Hashes, s: State, t: nat, code: string, verifier: string, token: string)
    requires h.hash(code) in s.codes && t !in s.requests && code != "" && verifier != ""
    requires h.challengeOf(verifier) != s.codes[h.hash(code)].challenge
    ensures var done := Next(h, Next(h, s, Redeem(t, code, verifier)), GrantToken(t, token));
            done.tokens == s.tokens && h.hash(code) !in done.codes
  {
    var redeemed := Next(h, s, Redeem(t, code, verifier));
    assert redeemed.tokens == s.tokens && redeemed.codes == s.codes - {h.hash(code)};
    assert redeemed.requests[t] == Ended || redeemed.requests[t] == Redeeming(h.hash(code), s.codes[h.hash(code)], code, verifier);
    GrantNeedsTheVerifier(h, redeemed, t, token);
  }

  lemma GrantNeedsTheVerifier(h: Hashes, s: State, t: nat, token: string)
    requires t in s.requests
    requires s.requests[t].Redeeming? ==> h.challengeOf(s.requests[t].verifier) != s.requests[t].code.challenge
    ensures Next(h, s, GrantToken(t, token)).tokens == s.tokens && Next(h, s, GrantToken(t, token)).codes == s.codes
  {}

  /** A request that stored a code or a token has ended, and so has nothing left to do. */
  lemma WhoYieldsHasEnded(h: Hashes, s: State, r: nat, code: string, token: string)
    ensures var now := Next(h, s, HandOver(r, code));
            now.codes != s.codes ==> r in now.requests && now.requests[r] == Ended
    ensures var now := Next(h, s, GrantToken(r, token));
            now.tokens != s.tokens ==> r in now.requests && now.requests[r] == Ended
  {}

  /** What expires is gone, and nothing else; who stops has nothing left to do. */
  lemma ExpiryTakesOnly(h: Hashes, s: State, state: string, code: string, token: string, r: nat)
    ensures var now := Next(h, s, Expire(state, code, token));
            && now.flows == s.flows - {state} && now.codes == s.codes - {code} && now.tokens == s.tokens - {token}
            && now.requests == s.requests
    ensures r in s.requests ==> Next(h, s, Stop(r)) == s.(requests := s.requests[r := Ended])
  {}
}
