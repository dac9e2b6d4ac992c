/** What the pairing sessions guarantee over whole runs: who can be stored, and that honest devices are. */
module PairingTheorems {
  import opened Aes
  import opened InitialValue
  import opened OneWay
  import opened PairingProtocol

  // ---------------------------------------------------------------- two-way: safety

  const BOOT: Pairing := Reset(false)

  predicate Is(e: Event, command: bv8, source: Address) {
    e.Received? && Command(e.frame) == command && Source(e.frame) == source
  }

  /** Event `m` makes the gateway send `command`: 0x2C when it takes up a 0x29, 0x38 when it issues a
      transfer challenge, 0x3C when it issues an authentication challenge. */
  ghost predicate Sends(aes: Encryption, es: seq<Event>, m: nat, command: bv8)
    requires m < |es|
  {
    var effect := Step(aes, After(aes, BOOT, es[..m]), es[m]).effect;
    effect.Sent? && effect.command == command
  }

  /** Event `m` makes the gateway send `command`, and no later event does. */
  ghost predicate SendsLast(aes: Encryption, es: seq<Event>, m: nat, command: bv8) {
    m < |es| && Sends(aes, es, m, command) && forall n :: m < n < |es| ==> !Sends(aes, es, n, command)
  }

  /** Event `i` is the last 0x29 taken up, and the session's peer and metadata come from it. */
  ghost predicate Discovered(aes: Encryption, es: seq<Event>, i: nat, two: TwoWay) {
    && SendsLast(aes, es, i, 0x2C)
    && Is(es[i], 0x29, two.peer) && |es[i].frame| >= 18 && two.metadata == es[i].frame[9..18]
  }

  /** Event `j` is the 0x2D of the peer for which the last transfer challenge was issued, and the
      session holds that challenge. */
  ghost predicate Asked(aes: Encryption, es: seq<Event>, j: nat, two: TwoWay) {
    && SendsLast(aes, es, j, 0x38)
    && Is(es[j], 0x2D, two.peer) && es[j].random == two.transferChallenge
  }

  predicate CarriesKey(aes: Encryption, e: Event, two: TwoWay) {
    && e.Received? && |e.frame| >= 25
    && two.transferred == [0x32] + e.frame[9..25]
    && two.first == DecryptedKey(aes, e.frame[9..25], 0x31, two.transferChallenge)
    && two.second == DecryptedKey(aes, e.frame[9..25], 0x38, two.transferChallenge)
    && two.authChallenge == e.random
  }

  /** Event `k` is the 0x32 of the peer for which the last authentication challenge was issued, and
      the candidate keys come from it. */
  ghost predicate Transferred(aes: Encryption, es: seq<Event>, k: nat, two: TwoWay) {
    && SendsLast(aes, es, k, 0x3C)
    && Is(es[k], 0x32, two.peer) && CarriesKey(aes, es[k], two)
  }

  /** What the stage of the session says about the events so far. */
  ghost predicate Evidence(aes: Encryption, es: seq<Event>, two: TwoWay, i: nat, j: nat, k: nat) {
    && (two.stage in {AwaitActuatorAck, AwaitKeyTransfer, AwaitKeyAuthentication} ==> Discovered(aes, es, i, two))
    && (two.stage in {AwaitKeyTransfer, AwaitKeyAuthentication} ==> i < j && Asked(aes, es, j, two))
    && (two.stage == AwaitKeyAuthentication ==> j < k && Transferred(aes, es, k, two))
  }

  lemma Extended(aes: Encryption, es: seq<Event>, e: Event)
    ensures After(aes, BOOT, es + [e]) == Step(aes, After(aes, BOOT, es), e).state
    ensures forall m, c :: 0 <= m < |es| ==> Sends(aes, es + [e], m, c) == Sends(aes, es, m, c)
    ensures (es + [e])[..|es|] == es
  {
    assert (es + [e])[..|es|] == es;
    forall m, c | 0 <= m < |es|
      ensures Sends(aes, es + [e], m, c) == Sends(aes, es, m, c)
    {
      assert (es + [e])[..m] == es[..m];
    }
  }

  /** Events that leave the two-way session as it is leave its evidence as it is. */
  lemma EvidenceKept(aes: Encryption, es: seq<Event>, e: Event, i: nat, j: nat, k: nat)
    requires var p := After(aes, BOOT, es);
      var o := Step(aes, p, e);
      && o.state.two == p.two && Evidence(aes, es, p.two, i, j, k)
      && !(o.effect.Sent?)
    ensures Evidence(aes, es + [e], After(aes, BOOT, es + [e]).two, i, j, k)
  {
    Extended(aes, es, e);
  }

  lemma EvidenceStep(aes: Encryption, es: seq<Event>, e: Event, i: nat, j: nat, k: nat)
    returns (i': nat, j': nat, k': nat)
    requires Evidence(aes, es, After(aes, BOOT, es).two, i, j, k)
    ensures Evidence(aes, es + [e], After(aes, BOOT, es + [e]).two, i', j', k')
  {
    var p := After(aes, BOOT, es);
    var o := Step(aes, p, e);
    var n := |es|;
    i', j', k' := i, j, k;
    Extended(aes, es, e);
    if o.effect.Sent? && o.effect.command == 0x2C {
      i' := n;
    } else if o.effect.Sent? && o.effect.command == 0x38 {
      j' := n;
    } else if o.effect.Sent? {
      k' := n;
    } else if o.state.two == p.two {
      EvidenceKept(aes, es, e, i, j, k);
    }
  }

  lemma {:induction false} EvidenceOf(aes: Encryption, es: seq<Event>) returns (i: nat, j: nat, k: nat)
    ensures Evidence(aes, es, After(aes, BOOT, es).two, i, j, k)
  {
    if es == [] {
      i, j, k := 0, 0, 0;
    } else {
      var n := |es| - 1;
      i, j, k := EvidenceOf(aes, es[..n]);
      i, j, k := EvidenceStep(aes, es[..n], es[n], i, j, k);
      assert es[..n] + [es[n]] == es;
    }
  }

  /** `answer` carries the MAC that the key decrypted from `transfer`, with `ivCommand` and the
      challenge issued on `ack`, gives for the transfer and the challenge issued on it. */
  predicate Proves(aes: Encryption, ivCommand: bv8, ack: Event, transfer: Event, answer: Event) {
    && ack.Received? && transfer.Received? && answer.Received?
    && |transfer.frame| >= 25 && |answer.frame| >= 15
    && var key := DecryptedKey(aes, transfer.frame[9..25], ivCommand, ack.random);
    Authenticates(aes, key, [0x32] + transfer.frame[9..25], transfer.random, answer.frame[9..15])
  }

  /** A peer is stored only on a proof. In any run from power-up, if the next event stores a peer,
      then it is a 0x3D, and the run holds, in this order and all from that peer: the last 0x29 taken
      up, the 0x2D for which the last 0x38 challenge was issued, and the 0x32 for which the last 0x3C
      challenge was issued. What is stored is what that 0x29 said; and the 0x3D carries the first six
      bytes of AES, under one of the two keys decrypted from that 0x32 with that 0x38 challenge, of
      the initial value of the 0x32 and that 0x3C challenge. */
  lemma StoredOnlyOnProof(aes: Encryption, es: seq<Event>, e: Event) returns (i: nat, j: nat, k: nat)
    requires Step(aes, After(aes, BOOT, es), e).effect.Stored?
    ensures i < j < k < |es|
    ensures var peer := Step(aes, After(aes, BOOT, es), e).effect.peer;
      && Is(es[i], 0x29, peer) && Is(es[j], 0x2D, peer) && Is(es[k], 0x32, peer) && Is(e, 0x3D, peer)
      && |es[i].frame| >= 18 && |es[k].frame| >= 25 && |e.frame| >= 15
      && Step(aes, After(aes, BOOT, es), e).effect == Entry(peer, es[i].frame[9..18])
    ensures SendsLast(aes, es, i, 0x2C) && SendsLast(aes, es, j, 0x38) && SendsLast(aes, es, k, 0x3C)
    ensures Proves(aes, 0x31, es[j], es[k], e) || Proves(aes, 0x38, es[j], es[k], e)
  {
    i, j, k := EvidenceOf(aes, es);
    var two := After(aes, BOOT, es).two;
    assert two.stage == AwaitKeyAuthentication && Accepted(aes, two, e.frame[9..15]);
  }

  /** Every frame the gateway sends goes to the session's peer, and the challenge it carries is the
      fresh one that the session keeps to decrypt the key, or to check the answer, with. */
  lemma SentIsKept(aes: Encryption, p: Pairing, e: Event)
    requires Step(aes, p, e).effect.Sent?
    ensures var o := Step(aes, p, e);
      && e.Received? && o.effect.target == Source(e.frame) == o.state.two.peer
      && o.effect.command in {0x2C, 0x38, 0x3C}
      && (o.effect.command == 0x2C ==> o.effect.data == [] && o.state.two.stage == AwaitActuatorAck)
      && (o.effect.command == 0x38 ==>
            o.effect.data == e.random == o.state.two.transferChallenge && o.state.two.stage == AwaitKeyTransfer)
      && (o.effect.command == 0x3C ==>
            o.effect.data == e.random == o.state.two.authChallenge && o.state.two.stage == AwaitKeyAuthentication
            && o.state.two.transferChallenge == p.two.transferChallenge)
  {
  }

  // ---------------------------------------------------------------- two-way: one answer per challenge

  /** Outside pairing mode no frame changes anything. */
  lemma ClosedIgnoresFrames(aes: Encryption, p: Pairing, e: Event)
    requires e.Received? && !p.pairMode
    ensures Step(aes, p, e) == Outcome(p, Nothing)
  {
  }

  /** The answer to the authentication challenge that the session waits for. */
  predicate Answers(p: Pairing, e: Event) {
    && e.Received? && Command(e.frame) == 0x3D && |e.frame| >= 15
    && p.pairMode && p.two.stage == AwaitKeyAuthentication && Source(e.frame) == p.two.peer
  }

  /** Such an answer ends pairing mode and both sessions, whether or not it is right: the peer is stored
      exactly if its six bytes are those of AES, under one of the two candidate keys, of the initial
      value of the transferred key and the challenge. */
  lemma AnswerEndsPairing(aes: Encryption, p: Pairing, e: Event)
    requires Answers(p, e)
    ensures var o := Step(aes, p, e);
      && !o.state.pairMode && o.state.two.stage == Idle && !o.state.solar.active && !o.state.solar.hasChallenge
      && var iv, answer := Value(p.two.transferred, p.two.authChallenge), e.frame[9..15];
      if aes(p.two.first, iv)[..6] == answer || aes(p.two.second, iv)[..6] == answer
      then var m := p.two.metadata;
           o.effect == Stored(p.two.peer, [m[2], m[3], m[4]], [m[0], m[1]], m[5], m[6])
      else o.effect == Nothing
  {
  }

  /** Every other 0x3D changes nothing. */
  lemma OtherAnswersIgnored(aes: Encryption, p: Pairing, e: Event)
    requires e.Received? && Command(e.frame) == 0x3D && !Answers(p, e)
    ensures Step(aes, p, e) == Outcome(p, Nothing)
  {
  }

  /** Event `m` is an answer that is checked. */
  ghost predicate Checked(aes: Encryption, es: seq<Event>, m: nat)
    requires m < |es|
  {
    Answers(After(aes, BOOT, es[..m]), es[m])
  }

  /** Only sending a 0x3C challenge makes the session wait for its answer. */
  lemma OnlyChallengeAwaits(aes: Encryption, p: Pairing, e: Event)
    requires p.two.stage != AwaitKeyAuthentication
    requires Step(aes, p, e).state.two.stage == AwaitKeyAuthentication
    ensures Step(aes, p, e).effect.Sent? && Step(aes, p, e).effect.command == 0x3C
  {
  }

  lemma {:induction false} ChallengedSince(aes: Encryption, es: seq<Event>, i: nat, j: nat) returns (k: nat)
    requires i <= j <= |es|
    requires After(aes, BOOT, es[..i]).two.stage != AwaitKeyAuthentication
    requires After(aes, BOOT, es[..j]).two.stage == AwaitKeyAuthentication
    ensures i <= k < j && Sends(aes, es, k, 0x3C)
    decreases j
  {
    assert i < j;
    assert es[..j][..j - 1] == es[..j - 1] && es[..j][j - 1] == es[j - 1];
    var p := After(aes, BOOT, es[..j - 1]);
    if p.two.stage == AwaitKeyAuthentication {
      k := ChallengedSince(aes, es, i, j - 1);
    } else {
      OnlyChallengeAwaits(aes, p, es[j - 1]);
      k := j - 1;
    }
  }

  /** At most one answer is checked per challenge: in every run from power-up, between two answers that
      are checked the gateway sends a new 0x3C challenge. */
  lemma OneAnswerPerChallenge(aes: Encryption, es: seq<Event>, i: nat, j: nat) returns (k: nat)
    requires i < j < |es| && Checked(aes, es, i) && Checked(aes, es, j)
    ensures i < k < j && Sends(aes, es, k, 0x3C)
  {
    AnswerEndsPairing(aes, After(aes, BOOT, es[..i]), es[i]);
    assert es[..i + 1][..i] == es[..i] && es[..i + 1][i] == es[i];
    k := ChallengedSince(aes, es, i + 1, j);
  }

  // ---------------------------------------------------------------- two-way: completeness

  /** A frame that cannot disturb the two-way session with `peer`: not another discover answer, not
      the end of a one-way learn, and none of the peer's own chain. */
  predicate LeavesTwoWayAlone(e: Event, peer: Address) {
    && e.Received? && Command(e.frame) != 0x29 && Command(e.frame) != 0x30
    && (Source(e.frame) == peer ==> Command(e.frame) != 0x2D && Command(e.frame) != 0x32 && Command(e.frame) != 0x3D)
  }

  lemma {:induction false} GapLeavesTwoWay(aes: Encryption, p: Pairing, gap: seq<Event>)
    requires forall e :: e in gap ==> LeavesTwoWayAlone(e, p.two.peer)
    ensures var q := After(aes, p, gap); q.two == p.two && q.pairMode == p.pairMode
  {
    if gap == [] {
    } else {
      GapLeavesTwoWay(aes, p, gap[..|gap| - 1]);
      assert gap[|gap| - 1] in gap;
    }
  }

  /** The four frames of a device that keeps to the protocol, with key `k`: it encrypts the key for
      the challenge it was sent, naming either command, and proves it knows the key. */
  ghost predicate HonestDevice(aes: Encryption, k: Block, ivCommand: bv8,
                               answer: Event, ack: Event, transfer: Event, proof: Event)
  {
    && answer.Received? && ack.Received? && transfer.Received? && proof.Received?
    && var peer := Source(answer.frame);
    && Is(answer, 0x29, peer) && |answer.frame| >= 18
    && Is(ack, 0x2D, peer)
    && Is(transfer, 0x32, peer) && |transfer.frame| >= 25 && ivCommand in {0x31, 0x38}
    && transfer.frame[9..25] == Masked(k, aes(TRANSFER_KEY, Value([ivCommand], ack.random)))
    && Is(proof, 0x3D, peer) && |proof.frame| >= 15
    && proof.frame[9..15] == aes(k, Value([0x32] + transfer.frame[9..25], transfer.random))[..6]
  }

  lemma KeyIsCandidate(aes: Encryption, k: Block, ivCommand: bv8, challenge: Challenge)
    ensures DecryptedKey(aes, Masked(k, aes(TRANSFER_KEY, Value([ivCommand], challenge))), ivCommand, challenge) == k
  {
    MaskedTwice(k, aes(TRANSFER_KEY, Value([ivCommand], challenge)));
  }

  /** Up to the key transfer: the device's key is one of the candidates. */
  lemma HonestKeyArrives(aes: Encryption, p: Pairing, k: Block, ivCommand: bv8,
                         answer: Event, g1: seq<Event>, ack: Event, g2: seq<Event>, transfer: Event, proof: Event)
    returns (q: Pairing)
    requires p.pairMode && HonestDevice(aes, k, ivCommand, answer, ack, transfer, proof)
    requires forall e :: e in g1 + g2 ==> LeavesTwoWayAlone(e, Source(answer.frame))
    ensures q == After(aes, p, [answer] + g1 + [ack] + g2 + [transfer])
    ensures q.pairMode && q.two.stage == AwaitKeyAuthentication && k in {q.two.first, q.two.second}
    ensures q.two.peer == Source(answer.frame) && q.two.metadata == answer.frame[9..18]
    ensures q.two.transferred == [0x32] + transfer.frame[9..25] && q.two.authChallenge == transfer.random
  {
    var p1 := Step(aes, p, answer).state;
    var p2 := After(aes, p1, g1);
    GapLeavesTwoWay(aes, p1, g1);
    var p3 := Step(aes, p2, ack).state;
    var p4 := After(aes, p3, g2);
    GapLeavesTwoWay(aes, p3, g2);
    q := Step(aes, p4, transfer).state;
    KeyIsCandidate(aes, k, ivCommand, ack.random);
    Chain(aes, p, answer, g1, p2);
    Chain(aes, p2, ack, g2, p4);
    AfterConcat(aes, p, [answer] + g1, [ack] + g2);
    AfterOne(aes, p4, transfer);
    AfterConcat(aes, p, [answer] + g1 + ([ack] + g2), [transfer]);
    assert [answer] + g1 + [ack] + g2 + [transfer] == [answer] + g1 + ([ack] + g2) + [transfer];
  }

  lemma Chain(aes: Encryption, p: Pairing, e: Event, gap: seq<Event>, q: Pairing)
    requires q == After(aes, Step(aes, p, e).state, gap)
    ensures After(aes, p, [e] + gap) == q
  {
    AfterOne(aes, p, e);
    AfterConcat(aes, p, [e], gap);
  }

  /** In pairing mode a device that keeps to the protocol is stored with what its discover answer
      said, and the session is reset, whatever harmless frames arrive in between. */
  lemma HonestDeviceIsStored(aes: Encryption, p: Pairing, k: Block, ivCommand: bv8,
                             answer: Event, g1: seq<Event>, ack: Event, g2: seq<Event>, transfer: Event,
                             g3: seq<Event>, proof: Event)
    requires p.pairMode && HonestDevice(aes, k, ivCommand, answer, ack, transfer, proof)
    requires forall e :: e in g1 + g2 + g3 ==> LeavesTwoWayAlone(e, Source(answer.frame))
    ensures var q := After(aes, p, [answer] + g1 + [ack] + g2 + [transfer] + g3);
      Step(aes, q, proof) == Outcome(Reset(false), Entry(Source(answer.frame), answer.frame[9..18]))
  {
    var before := [answer] + g1 + [ack] + g2 + [transfer];
    var p5 := HonestKeyArrives(aes, p, k, ivCommand, answer, g1, ack, g2, transfer, proof);
    GapLeavesTwoWay(aes, p5, g3);
    AfterConcat(aes, p, before, g3);
  }

  // ---------------------------------------------------------------- one-way: the learn round trip

  /** What the receiver holds after the 0x2E frame of remote `r`, and after its 0x39 frame. */
  predicate Learning(p: Pairing, r: Remote, startedMs: nat) {
    && p.pairMode && p.solar.active && p.solar.source == r.node
    && p.solar.startedMs == startedMs && p.solar.kind == r.kind
  }

  predicate Challenged(aes: Encryption, s: Solar, r: Remote) {
    && s.hasChallenge && s.data == 0x00 && s.sequence == Big(Next(r.sequence))
    && s.hmac == Mac(aes, r.key, [0x39, 0x00], Big(Next(r.sequence)))[..6]
  }

  function LearnFrame(aes: Encryption, r: Remote): Frame {
    SignedFrame(aes, r, 0x2E)
  }

  function ChallengeFrame(aes: Encryption, r: Remote): Frame {
    SignedFrame(aes, r.(sequence := Next(r.sequence)), 0x39)
  }

  function LastFrame(aes: Encryption, r: Remote): Frame {
    KeyFrame(aes, r.(sequence := Next(Next(r.sequence))))
  }

  /** In time, and a repetition of one of the first two frames or a frame of another sender that
      neither starts another learn nor ends a two-way pairing. */
  predicate LeavesLearnAlone(aes: Encryption, e: Event, r: Remote, startedMs: nat) {
    && e.Received? && Elapsed(e.nowMs, startedMs) <= LEARN_WINDOW_MS
    && (if Source(e.frame) == r.node then e.frame in {LearnFrame(aes, r), ChallengeFrame(aes, r)}
        else Command(e.frame) != 0x2E && Command(e.frame) != 0x3D)
  }

  lemma HeaderReadsBack(f: Frame, r: Remote, length: bv8, command: bv8)
    requires f[..9] == Header(r, length, command)
    ensures Target(f) == BroadcastTarget(r.kind) && Source(f) == r.node && Command(f) == command
    ensures TypeFromTarget(Target(f)) == r.kind
  {
    var h := Header(r, length, command);
    assert Target(f) == f[..9][2..5] && Source(f) == f[..9][5..8] && Command(f) == f[..9][8];
    assert h[2..5] == BroadcastTarget(r.kind) && h[5..8] == r.node;
    TypeRoundTrip(r.kind);
  }

  lemma SignedReadsBack(aes: Encryption, r: Remote, command: bv8)
    ensures var f := SignedFrame(aes, r, command);
      && Source(f) == r.node && Command(f) == command && TypeFromTarget(Target(f)) == r.kind
      && f[9] == 0x00 && f[10..12] == Big(r.sequence)
      && f[12..18] == Mac(aes, r.key, [command, 0x00], Big(r.sequence))[..6]
  {
    var f := SignedFrame(aes, r, command);
    assert f[..9] == Header(r, 17, command);
    HeaderReadsBack(f, r, 17, command);
  }

  lemma KeyReadsBack(aes: Encryption, r: Remote)
    ensures var f := KeyFrame(aes, r);
      && Source(f) == r.node && Command(f) == 0x30 && TypeFromTarget(Target(f)) == r.kind
      && TransformedKey(aes, r.node, f[9..25]) == r.key
      && f[25] == r.manufacturer && FromBig(f[27], f[28]) == r.sequence
  {
    var f := KeyFrame(aes, r);
    assert f[..9] == Header(r, 28, 0x30);
    HeaderReadsBack(f, r, 28, 0x30);
    assert f[9..25] == TransformedKey(aes, r.node, r.key);
    TransformInvolution(aes, r.node, r.key);
    BigRoundTrip(r.sequence);
  }

  /** When the session that a 0x2E of `r` belongs to began: the 0x2E does not restart an open one. */
  function LearnStart(p: Pairing, r: Remote, nowMs: nat): nat {
    if SameSession(p.solar, r.node, nowMs) then p.solar.startedMs else nowMs
  }

  lemma LearnFrameTaken(aes: Encryption, p: Pairing, e: Event, r: Remote)
    requires p.pairMode && e.Received? && e.frame == LearnFrame(aes, r)
    ensures var q := Step(aes, p, e).state;
      && Learning(q, r, LearnStart(p, r, e.nowMs))
      && (SameSession(p.solar, r.node, e.nowMs) ==> q == p.(solar := p.solar.(kind := r.kind)))
  {
    SignedReadsBack(aes, r, 0x2E);
  }

  lemma ChallengeFrameTaken(aes: Encryption, p: Pairing, e: Event, r: Remote, startedMs: nat)
    requires Learning(p, r, startedMs) && e.Received? && e.frame == ChallengeFrame(aes, r)
    requires Elapsed(e.nowMs, startedMs) <= LEARN_WINDOW_MS
    ensures var q := Step(aes, p, e).state; Learning(q, r, startedMs) && Challenged(aes, q.solar, r)
  {
    SignedReadsBack(aes, r.(sequence := Next(r.sequence)), 0x39);
  }

  lemma OtherFrameIgnored(aes: Encryption, p: Pairing, e: Event, r: Remote, startedMs: nat)
    requires Learning(p, r, startedMs) && LeavesLearnAlone(aes, e, r, startedMs) && Source(e.frame) != r.node
    ensures var q := Step(aes, p, e).state; q.solar == p.solar && q.pairMode == p.pairMode
  {
  }

  lemma {:induction false} GapLeavesLearn(aes: Encryption, p: Pairing, gap: seq<Event>, r: Remote, startedMs: nat)
    requires Learning(p, r, startedMs)
    requires forall e :: e in gap ==> LeavesLearnAlone(aes, e, r, startedMs)
    ensures var q := After(aes, p, gap);
      Learning(q, r, startedMs) && (Challenged(aes, p.solar, r) ==> Challenged(aes, q.solar, r))
  {
    if gap == [] {
    } else {
      var rest, e := gap[..|gap| - 1], gap[|gap| - 1];
      GapLeavesLearn(aes, p, rest, r, startedMs);
      assert e in gap;
      var q := After(aes, p, rest);
      if Source(e.frame) != r.node {
        OtherFrameIgnored(aes, q, e, r, startedMs);
      } else if e.frame == LearnFrame(aes, r) {
        LearnFrameTaken(aes, q, e, r);
      } else {
        ChallengeFrameTaken(aes, q, e, r, startedMs);
      }
    }
  }

  lemma VerifiedKeyImported(aes: Encryption, p: Pairing, e: Event, r: Remote, startedMs: nat)
    requires Learning(p, r, startedMs) && Verifies(aes, p.solar, r.key) && e.Received? && e.frame == KeyFrame(aes, r)
    requires Elapsed(e.nowMs, startedMs) <= LEARN_WINDOW_MS
    ensures Step(aes, p, e) ==
      Outcome(if e.saveOk then Reset(false) else p,
              Imported(r.node, r.key, Next(r.sequence), r.kind, r.manufacturer, e.saveOk))
  {
    KeyReadsBack(aes, r);
    hide KeyFrame, FromBig, TypeFromTarget, TransformedKey, Verifies;
  }

  lemma KeyFrameTaken(aes: Encryption, p: Pairing, e: Event, r: Remote, startedMs: nat)
    requires Learning(p, r, startedMs) && Challenged(aes, p.solar, r) && e.Received? && e.frame == LastFrame(aes, r)
    requires Elapsed(e.nowMs, startedMs) <= LEARN_WINDOW_MS
    ensures Step(aes, p, e) ==
      Outcome(if e.saveOk then Reset(false) else p,
              Imported(r.node, r.key, Next(Next(Next(r.sequence))), r.kind, r.manufacturer, e.saveOk))
  {
    var sender := r.(sequence := Next(Next(r.sequence)));
    assert Learning(p, sender, startedMs) && Verifies(aes, p.solar, sender.key);
    VerifiedKeyImported(aes, p, e, sender, startedMs);
  }

  /** Two gateways: the frames that cmd(Pair), cmd(Remove) and cmd(Add) send for a remote make a
      receiver in pairing mode import exactly its node, key, manufacturer and type, with the sequence
      number the sender will use next, whatever repetitions and foreign frames come in between, within
      120 s of the start of the session: the 0x2E, or an earlier one of an open session. */
  lemma LearnRoundTrip(aes: Encryption, p: Pairing, r: Remote, learn: Event, g1: seq<Event>,
                       challenge: Event, g2: seq<Event>, last: Event)
    requires learn.Received? && challenge.Received? && last.Received?
    requires learn.frame == LearnFrame(aes, r) && challenge.frame == ChallengeFrame(aes, r)
    requires last.frame == LastFrame(aes, r)
    requires p.pairMode
    requires Elapsed(challenge.nowMs, LearnStart(p, r, learn.nowMs)) <= LEARN_WINDOW_MS
    requires Elapsed(last.nowMs, LearnStart(p, r, learn.nowMs)) <= LEARN_WINDOW_MS
    requires forall e :: e in g1 + g2 ==> LeavesLearnAlone(aes, e, r, LearnStart(p, r, learn.nowMs))
    ensures var q := After(aes, p, [learn] + g1 + [challenge] + g2);
      && Step(aes, q, last).effect ==
           Imported(r.node, r.key, Next(Next(Next(r.sequence))), r.kind, r.manufacturer, last.saveOk)
      && (last.saveOk ==> Step(aes, q, last).state == Reset(false))
  {
    var startedMs := LearnStart(p, r, learn.nowMs);
    var p1 := Step(aes, p, learn).state;
    LearnFrameTaken(aes, p, learn, r);
    GapLeavesLearn(aes, p1, g1, r, startedMs);
    var p2 := After(aes, p1, g1);
    Chain(aes, p, learn, g1, p2);
    var p3 := Step(aes, p2, challenge).state;
    ChallengeFrameTaken(aes, p2, challenge, r, startedMs);
    GapLeavesLearn(aes, p3, g2, r, startedMs);
    var p4 := After(aes, p3, g2);
    Chain(aes, p2, challenge, g2, p4);
    AfterConcat(aes, p, [learn] + g1, [challenge] + g2);
    assert [learn] + g1 + [challenge] + g2 == [learn] + g1 + ([challenge] + g2);
    KeyFrameTaken(aes, p4, last, r, startedMs);
  }

  // ---------------------------------------------------------------- one-way: safety

  /** Event `m` is a 0x2E frame that starts a new learn session. */
  ghost predicate StartsLearn(aes: Encryption, es: seq<Event>, m: nat)
    requires m < |es|
  {
    var p := After(aes, BOOT, es[..m]);
    && es[m].Received? && Command(es[m].frame) == 0x2E && p.pairMode
    && !SameSession(p.solar, Source(es[m].frame), es[m].nowMs)
  }

  /** Event `m` is a 0x39 frame that the learn session captures. */
  ghost predicate CapturesChallenge(aes: Encryption, es: seq<Event>, m: nat)
    requires m < |es|
  {
    var p := After(aes, BOOT, es[..m]);
    && es[m].Received? && Command(es[m].frame) == 0x39 && |es[m].frame| >= 18 && p.pairMode
    && SameSession(p.solar, Source(es[m].frame), es[m].nowMs)
  }

  /** Event `i` is the last 0x2E frame that started a learn session, and it is this one. */
  ghost predicate Started(aes: Encryption, es: seq<Event>, i: nat, s: Solar) {
    && i < |es| && StartsLearn(aes, es, i) && Is(es[i], 0x2E, s.source) && es[i].nowMs == s.startedMs
    && forall m :: i < m < |es| ==> !StartsLearn(aes, es, m)
  }

  /** Event `j` is the last 0x39 frame captured, it came from the session's source and in time, and
      the session holds what it carries. */
  ghost predicate Captured(aes: Encryption, es: seq<Event>, j: nat, s: Solar) {
    && j < |es| && CapturesChallenge(aes, es, j) && Is(es[j], 0x39, s.source)
    && (forall m :: j < m < |es| ==> !CapturesChallenge(aes, es, m))
    && Elapsed(es[j].nowMs, s.startedMs) <= LEARN_WINDOW_MS
    && s.data == es[j].frame[9] && s.sequence == es[j].frame[10..12] && s.hmac == es[j].frame[12..18]
  }

  ghost predicate LearnEvidence(aes: Encryption, es: seq<Event>, s: Solar, i: nat, j: nat) {
    && (s.active ==> Started(aes, es, i, s))
    && (s.hasChallenge ==> s.active && i < j && Captured(aes, es, j, s))
  }

  lemma LearnExtended(aes: Encryption, es: seq<Event>, e: Event)
    ensures forall m :: 0 <= m < |es| ==> StartsLearn(aes, es + [e], m) == StartsLearn(aes, es, m)
    ensures forall m :: 0 <= m < |es| ==> CapturesChallenge(aes, es + [e], m) == CapturesChallenge(aes, es, m)
  {
    forall m | 0 <= m < |es|
      ensures StartsLearn(aes, es + [e], m) == StartsLearn(aes, es, m)
      ensures CapturesChallenge(aes, es + [e], m) == CapturesChallenge(aes, es, m)
    {
      assert (es + [e])[..m] == es[..m];
    }
  }

  lemma LearnEvidenceStep(aes: Encryption, es: seq<Event>, e: Event, i: nat, j: nat) returns (i': nat, j': nat)
    requires LearnEvidence(aes, es, After(aes, BOOT, es).solar, i, j)
    ensures LearnEvidence(aes, es + [e], After(aes, BOOT, es + [e]).solar, i', j')
  {
    Extended(aes, es, e);
    LearnExtended(aes, es, e);
    i', j' := i, j;
    if StartsLearn(aes, es + [e], |es|) {
      i' := |es|;
    } else if CapturesChallenge(aes, es + [e], |es|) {
      j' := |es|;
    }
  }

  lemma {:induction false} LearnEvidenceOf(aes: Encryption, es: seq<Event>) returns (i: nat, j: nat)
    ensures LearnEvidence(aes, es, After(aes, BOOT, es).solar, i, j)
  {
    if es == [] {
      i, j := 0, 0;
    } else {
      var n := |es| - 1;
      i, j := LearnEvidenceOf(aes, es[..n]);
      i, j := LearnEvidenceStep(aes, es[..n], es[n], i, j);
      assert es[..n] + [es[n]] == es;
    }
  }

  /** A remote is imported only on a proof. In any run from power-up, if the next event imports a
      remote, then it is a 0x30 frame of that remote; the last 0x2E that started a learn session is of
      the same remote; after it, within 120 s, came the last 0x39 captured, of the same remote and
      with the MAC that the imported key gives; and the 0x30 came within 120 s too. */
  lemma ImportedOnlyOnProof(aes: Encryption, es: seq<Event>, e: Event) returns (i: nat, j: nat)
    requires Step(aes, After(aes, BOOT, es), e).effect.Imported?
    ensures i < j < |es|
    ensures var effect := Step(aes, After(aes, BOOT, es), e).effect;
      && Is(es[i], 0x2E, effect.node) && Is(es[j], 0x39, effect.node) && Is(e, 0x30, effect.node)
      && |es[j].frame| >= 18 && |e.frame| >= 29
      && effect.key == TransformedKey(aes, effect.node, e.frame[9..25])
      && Mac(aes, effect.key, [0x39, es[j].frame[9]], es[j].frame[10..12])[..6] == es[j].frame[12..18]
    ensures Elapsed(es[j].nowMs, es[i].nowMs) <= LEARN_WINDOW_MS && Elapsed(e.nowMs, es[i].nowMs) <= LEARN_WINDOW_MS
    ensures StartsLearn(aes, es, i) && forall m :: i < m < |es| ==> !StartsLearn(aes, es, m)
    ensures CapturesChallenge(aes, es, j) && forall m :: j < m < |es| ==> !CapturesChallenge(aes, es, m)
  {
    i, j := LearnEvidenceOf(aes, es);
  }

  /** A 0x30 changes nothing unless it proves its key: of the session's source, in time, with a challenge
      captured whose MAC is that of the key it carries. */
  lemma UnprovedKeyIgnored(aes: Encryption, p: Pairing, e: Event)
    requires e.Received? && Command(e.frame) == 0x30
    requires
      || |e.frame| < 29 || !p.solar.active || p.solar.source != Source(e.frame) || !p.solar.hasChallenge
      || (e.nowMs - p.solar.startedMs) % 0x1_0000_0000 > 120_000
      || Mac(aes, TransformedKey(aes, Source(e.frame), e.frame[9..25]), [0x39, p.solar.data], p.solar.sequence)[..6]
         != p.solar.hmac
    ensures Step(aes, p, e) == Outcome(p, Nothing)
  {
  }

  /** And one that does prove its key imports exactly what it carries; pairing ends if the import could be
      saved, and goes on as it was if not. */
  lemma ProvedKeyImported(aes: Encryption, p: Pairing, e: Event)
    requires e.Received? && Command(e.frame) == 0x30 && |e.frame| >= 29 && p.pairMode
    requires p.solar.active && p.solar.source == Source(e.frame) && p.solar.hasChallenge
    requires (e.nowMs - p.solar.startedMs) % 0x1_0000_0000 <= 120_000
    requires
      Mac(aes, TransformedKey(aes, Source(e.frame), e.frame[9..25]), [0x39, p.solar.data], p.solar.sequence)[..6]
      == p.solar.hmac
    ensures var o, f := Step(aes, p, e), e.frame;
      && o.effect == Imported(Source(f), TransformedKey(aes, Source(f), f[9..25]), FromBig(f[27], f[28]) + 1,
                              if p.solar.kind != 0 then p.solar.kind else TypeFromTarget(Target(f)), f[25], e.saveOk)
      && (!e.saveOk ==> o.state == p)
      && (e.saveOk ==> !o.state.pairMode && o.state.two.stage == Idle && !o.state.solar.active)
  {
  }

  /** Opening and closing the window drops both sessions; the toggle drops none. */
  lemma WindowsReset(aes: Encryption, p: Pairing)
    ensures var q := Step(aes, p, OpenWindow).state;
            q.pairMode && q.two.stage == AwaitDiscoverAnswer && !q.solar.active && !q.solar.hasChallenge
    ensures var q := Step(aes, p, WindowTimeout).state;
            !q.pairMode && q.two.stage == Idle && !q.solar.active && !q.solar.hasChallenge
    ensures Step(aes, p, Toggle).state == p.(pairMode := !p.pairMode)
  {
  }
}
