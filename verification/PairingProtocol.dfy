/** The two pairing sessions driven by received frames: the two-way chain 0x29, 0x2D, 0x32, 0x3D and
    the one-way learn chain 0x2E, 0x39, 0x30. One step per received frame or window event. */
module PairingProtocol {
  import opened Aes
  import opened InitialValue
  import opened OneWay

  datatype Stage = Idle | AwaitDiscoverAnswer | AwaitActuatorAck | AwaitKeyTransfer | AwaitKeyAuthentication

  type Challenge = c: seq<bv8> | |c| == 6 witness [0, 0, 0, 0, 0, 0]
  type Counter = c: seq<bv8> | |c| == 2 witness [0, 0]
  type Metadata = m: seq<bv8> | |m| == 9 witness [0, 0, 0, 0, 0, 0, 0, 0, 0]

  datatype TwoWay = TwoWay(stage: Stage, peer: Address, metadata: Metadata, transferChallenge: Challenge,
                           authChallenge: Challenge, transferred: seq<bv8>, first: Block, second: Block)

  datatype Solar = Solar(active: bool, hasChallenge: bool, source: Address, startedMs: nat, kind: bv8,
                         data: bv8, sequence: Counter, hmac: Challenge)

  datatype Pairing = Pairing(pairMode: bool, two: TwoWay, solar: Solar)

  function Zeros(n: nat): (z: seq<bv8>)
    ensures |z| == n
  {
    if n == 0 then [] else Zeros(n - 1) + [0]
  }

  const NO_SESSION: TwoWay := TwoWay(Idle, Zeros(3), Zeros(9), Zeros(6), Zeros(6), Zeros(17), Zeros(16), Zeros(16))
  const NO_SOLAR: Solar := Solar(false, false, Zeros(3), 0, 0, 0, Zeros(2), Zeros(6))

  datatype Effect =
    | Nothing
    | Sent(command: bv8, target: Address, data: seq<bv8>)
    | Stored(peer: Address, backbone: Address, actuator: seq<bv8>, maker: bv8, flags: bv8)
    | Imported(node: Address, key: Block, sequence: bv16, kind: bv8, manufacturer: bv8, saved: bool)

  datatype Outcome = Outcome(state: Pairing, effect: Effect)

  /** The clock, the random bytes and the result of saving are inputs of the step that uses them. */
  datatype Event =
    | Received(frame: Frame, nowMs: nat, random: Challenge, saveOk: bool)
    | OpenWindow
    | WindowTimeout
    | Toggle

  const MILLIS_WRAP: nat := 0x1_0000_0000
  const LEARN_WINDOW_MS: nat := 120000

  function Elapsed(now: nat, since: nat): nat {
    (now - since) % MILLIS_WRAP
  }

  /** resetTwoWPairingSession: both sessions, back to where the pairing mode says. */
  function Reset(pairMode: bool): Pairing {
    Pairing(pairMode, NO_SESSION.(stage := if pairMode then AwaitDiscoverAnswer else Idle), NO_SOLAR)
  }

  function Ignored(p: Pairing): Outcome { Outcome(p, Nothing) }

  // ---------------------------------------------------------------- two-way

  function DecryptedKey(aes: Encryption, encrypted: Block, ivCommand: bv8, challenge: Challenge): Block {
    Masked(encrypted, aes(TRANSFER_KEY, Value([ivCommand], challenge)))
  }

  predicate Authenticates(aes: Encryption, key: Block, transferred: seq<bv8>, challenge: Challenge, answer: seq<bv8>) {
    aes(key, Value(transferred, challenge))[..6] == answer
  }

  function OnDiscoverAnswer(p: Pairing, f: Frame): Outcome {
    if !p.pairMode || |f| < 18 then Ignored(p)
    else
      var two := p.two.(peer := Source(f), metadata := f[9..18], stage := AwaitActuatorAck);
      Outcome(p.(two := two), Sent(0x2C, Source(f), []))
  }

  function OnActuatorAck(p: Pairing, f: Frame, random: Challenge): Outcome {
    if p.pairMode && p.two.stage == AwaitActuatorAck && p.two.peer == Source(f) then
      var two := p.two.(transferChallenge := random, stage := AwaitKeyTransfer);
      Outcome(p.(two := two), Sent(0x38, p.two.peer, random))
    else Ignored(p)
  }

  function OnKeyTransfer(aes: Encryption, p: Pairing, f: Frame, random: Challenge): Outcome {
    if !p.pairMode || p.two.stage != AwaitKeyTransfer || p.two.peer != Source(f) || |f| < 25 then Ignored(p)
    else
      var two := p.two.(transferred := [0x32] + f[9..25],
                        first := DecryptedKey(aes, f[9..25], 0x31, p.two.transferChallenge),
                        second := DecryptedKey(aes, f[9..25], 0x38, p.two.transferChallenge),
                        authChallenge := random,
                        stage := AwaitKeyAuthentication);
      Outcome(p.(two := two), Sent(0x3C, p.two.peer, random))
  }

  predicate Accepted(aes: Encryption, two: TwoWay, answer: seq<bv8>) {
    || Authenticates(aes, two.first, two.transferred, two.authChallenge, answer)
    || Authenticates(aes, two.second, two.transferred, two.authChallenge, answer)
  }

  /** What the system table receives: the peer and what its discover answer said. */
  function Entry(peer: Address, m: Metadata): Effect {
    Stored(peer, m[2..5], m[0..2], m[5], m[6])
  }

  function OnChallengeAnswer(aes: Encryption, p: Pairing, f: Frame): Outcome {
    if !p.pairMode || p.two.stage != AwaitKeyAuthentication || p.two.peer != Source(f) || |f| < 15 then Ignored(p)
    else Outcome(Reset(false), if Accepted(aes, p.two, f[9..15]) then Entry(p.two.peer, p.two.metadata) else Nothing)
  }

  // ---------------------------------------------------------------- one-way

  predicate SameSession(s: Solar, source: Address, nowMs: nat) {
    s.active && s.source == source && Elapsed(nowMs, s.startedMs) <= LEARN_WINDOW_MS
  }

  function OnLearn(p: Pairing, f: Frame, nowMs: nat): Outcome {
    if !p.pairMode then Ignored(p)
    else
      var s := if SameSession(p.solar, Source(f), nowMs) then p.solar
               else NO_SOLAR.(active := true, source := Source(f), startedMs := nowMs);
      Ignored(p.(solar := s.(kind := TypeFromTarget(Target(f)))))
  }

  function OnOneWayChallenge(p: Pairing, f: Frame, nowMs: nat): Outcome {
    if p.pairMode && SameSession(p.solar, Source(f), nowMs) && |f| >= 18 then
      Ignored(p.(solar := p.solar.(data := f[9], sequence := f[10..12], hmac := f[12..18],
                                   kind := TypeFromTarget(Target(f)), hasChallenge := true)))
    else Ignored(p)
  }

  /** verifySolarChallenge: the key explains the MAC of the captured 0x39 frame. */
  predicate Verifies(aes: Encryption, s: Solar, key: Block) {
    s.hasChallenge && Mac(aes, key, [0x39, s.data], s.sequence)[..6] == s.hmac
  }

  function OnKeyFrame(aes: Encryption, p: Pairing, f: Frame, nowMs: nat, saveOk: bool): Outcome {
    if |f| < 29 || !p.pairMode then Ignored(p)
    else
      var key := TransformedKey(aes, Source(f), f[9..25]);
      if !SameSession(p.solar, Source(f), nowMs) || !Verifies(aes, p.solar, key) then Ignored(p)
      else
        var kind := if p.solar.kind != 0 then p.solar.kind else TypeFromTarget(Target(f));
        Outcome(if saveOk then Reset(false) else p,
                Imported(Source(f), key, Next(FromBig(f[27], f[28])), kind, f[25], saveOk))
  }

  // ---------------------------------------------------------------- one step, and runs

  function Step(aes: Encryption, p: Pairing, e: Event): Outcome {
    match e
    case OpenWindow => Ignored(Reset(true))
    case WindowTimeout => Ignored(Reset(false))
    case Toggle => Ignored(p.(pairMode := !p.pairMode))
    case Received(f, nowMs, random, saveOk) =>
      if Command(f) == 0x29 then OnDiscoverAnswer(p, f)
      else if Command(f) == 0x2D then OnActuatorAck(p, f, random)
      else if Command(f) == 0x32 then OnKeyTransfer(aes, p, f, random)
      else if Command(f) == 0x3D then OnChallengeAnswer(aes, p, f)
      else if Command(f) == 0x2E then OnLearn(p, f, nowMs)
      else if Command(f) == 0x39 then OnOneWayChallenge(p, f, nowMs)
      else if Command(f) == 0x30 then OnKeyFrame(aes, p, f, nowMs, saveOk)
      else Ignored(p)
  }

  function After(aes: Encryption, p: Pairing, events: seq<Event>): Pairing {
    if events == [] then p
    else Step(aes, After(aes, p, events[..|events| - 1]), events[|events| - 1]).state
  }

  lemma {:induction false} AfterConcat(aes: Encryption, p: Pairing, x: seq<Event>, y: seq<Event>)
    ensures After(aes, p, x + y) == After(aes, After(aes, p, x), y)
  {
    if y == [] {
      assert x + y == x;
    } else {
      var n := |y| - 1;
      assert (x + y)[..|x + y| - 1] == x + y[..n];
      AfterConcat(aes, p, x, y[..n]);
    }
  }

  lemma AfterOne(aes: Encryption, p: Pairing, e: Event)
    ensures After(aes, p, [e]) == Step(aes, p, e).state
  {
    assert [e][..0] == [];
  }
}
