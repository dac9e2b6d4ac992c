/** The pairing sessions as the code keeps them: two records, changed case by case when a frame
    arrives. Each case is proved to be the step of the protocol. */
module PairingCode {
  import opened Aes
  import opened InitialValue
  import opened OneWay
  import opened PairingProtocol

  class PairingSession {
    var pairMode: bool
    var two: TwoWay
    var solar: Solar

    constructor ()
      ensures View() == Reset(false)
    {
      pairMode, two, solar := false, NO_SESSION, NO_SOLAR;
    }

    function View(): Pairing
      reads this
    {
      Pairing(pairMode, two, solar)
    }

    method ResetSessions()
      modifies this`two, this`solar
      ensures View() == Reset(pairMode)
    {
      two := NO_SESSION;
      solar := NO_SOLAR;
      two := two.(stage := if pairMode then AwaitDiscoverAnswer else Idle);
    }

    method OpenWindow()
      modifies this
      ensures View() == Reset(true)
    {
      pairMode := true;
      ResetSessions();
    }

    /** The end of the window, and of every pairing. */
    method CloseWindow()
      modifies this
      ensures View() == Reset(false)
    {
      pairMode := false;
      ResetSessions();
    }

    method DecryptTransferredKey(aes: Encryption, encryptedKey: Block, ivCommand: bv8) returns (key: Block)
      ensures key == DecryptedKey(aes, encryptedKey, ivCommand, two.transferChallenge)
    {
      var initialValue := new bv8[16](_ => 0);
      TwoWayInitialValue([ivCommand], initialValue, 1, two.transferChallenge);
      assert [ivCommand][..1] == [ivCommand] && two.transferChallenge[..6] == two.transferChallenge;
      var pad := aes(TRANSFER_KEY, initialValue[..]);
      var result := encryptedKey;
      for i := 0 to 16
        invariant |result| == 16
        invariant forall k :: 0 <= k < 16 ==> result[k] == if k < i then encryptedKey[k] ^ pad[k] else encryptedKey[k]
      {
        result := result[i := encryptedKey[i] ^ pad[i]];
      }
      key := result;
    }

    method AuthenticateTransferredKey(aes: Encryption, answer: seq<bv8>, key: Block) returns (ok: bool)
      requires |answer| == 6
      ensures ok == Authenticates(aes, key, two.transferred, two.authChallenge, answer)
    {
      var initialValue := new bv8[16](_ => 0);
      TwoWayInitialValue(two.transferred, initialValue, |two.transferred|, two.authChallenge);
      assert two.transferred[..|two.transferred|] == two.transferred && two.authChallenge[..6] == two.authChallenge;
      var expected := aes(key, initialValue[..]);
      ok := expected[..6] == answer;
    }

    method DiscoverAnswer(f: Frame) returns (effect: Effect)
      modifies this`two
      ensures Outcome(View(), effect) == OnDiscoverAnswer(old(View()), f)
    {
      if !pairMode {
        return Nothing;
      }
      if |f| < 18 {
        return Nothing;
      }
      two := two.(peer := Source(f));
      two := two.(metadata := f[9..18]);
      two := two.(stage := AwaitActuatorAck);
      effect := Sent(0x2C, two.peer, []);
    }

    method ActuatorAck(f: Frame, random: Challenge) returns (effect: Effect)
      modifies this`two
      ensures Outcome(View(), effect) == OnActuatorAck(old(View()), f, random)
    {
      if pairMode && two.stage == AwaitActuatorAck && two.peer == Source(f) {
        two := two.(transferChallenge := random);
        effect := Sent(0x38, two.peer, two.transferChallenge);
        two := two.(stage := AwaitKeyTransfer);
        return;
      }
      effect := Nothing;
    }

    method KeyTransfer(aes: Encryption, f: Frame, random: Challenge) returns (effect: Effect)
      modifies this`two
      ensures Outcome(View(), effect) == OnKeyTransfer(aes, old(View()), f, random)
    {
      if !pairMode || two.stage != AwaitKeyTransfer || two.peer != Source(f) {
        return Nothing;
      }
      if |f| < 25 {
        return Nothing;
      }
      var encryptedKey := f[9..25];
      two := two.(transferred := [0x32] + encryptedKey);
      var key := DecryptTransferredKey(aes, encryptedKey, 0x31);
      two := two.(first := key);
      key := DecryptTransferredKey(aes, encryptedKey, 0x38);
      two := two.(second := key);
      two := two.(authChallenge := random);
      effect := Sent(0x3C, two.peer, two.authChallenge);
      two := two.(stage := AwaitKeyAuthentication);
    }

    method ChallengeAnswer(aes: Encryption, f: Frame) returns (effect: Effect)
      modifies this
      ensures Outcome(View(), effect) == OnChallengeAnswer(aes, old(View()), f)
    {
      if !pairMode || two.stage != AwaitKeyAuthentication || two.peer != Source(f) {
        return Nothing;
      }
      if |f| < 15 {
        return Nothing;
      }
      var candidates := [two.first, two.second];
      assert candidates[0] == two.first && candidates[1] == two.second;
      var authenticated := -1;
      var i := 0;
      while i < |candidates|
        invariant 0 <= i <= 2 && authenticated == -1 && View() == old(View())
        invariant forall c :: 0 <= c < i ==>
          !Authenticates(aes, candidates[c], two.transferred, two.authChallenge, f[9..15])
      {
        var ok := AuthenticateTransferredKey(aes, f[9..15], candidates[i]);
        if ok {
          assert i == 0 || i == 1;
          assert Accepted(aes, two, f[9..15]);
          authenticated := i;
          break;
        }
        i := i + 1;
      }
      if authenticated < 0 {
        assert !Authenticates(aes, candidates[0], two.transferred, two.authChallenge, f[9..15]);
        assert !Authenticates(aes, candidates[1], two.transferred, two.authChallenge, f[9..15]);
        CloseWindow();
        return Nothing;
      }
      var m := two.metadata;
      assert m[2..5] == [m[2], m[3], m[4]] && m[0..2] == [m[0], m[1]];
      effect := Stored(two.peer, [m[2], m[3], m[4]], [m[0], m[1]], m[5], m[6]);
      CloseWindow();
    }

    method Learn(f: Frame, nowMs: nat)
      returns (effect: Effect)
      modifies this`solar
      ensures Outcome(View(), effect) == OnLearn(old(View()), f, nowMs)
    {
      if pairMode {
        var newSession := !solar.active || solar.source != Source(f) || Elapsed(nowMs, solar.startedMs) > LEARN_WINDOW_MS;
        if newSession {
          solar := NO_SOLAR;
          solar := solar.(active := true);
          solar := solar.(source := Source(f));
          solar := solar.(startedMs := nowMs);
        }
        solar := solar.(kind := TypeFromTarget(Target(f)));
      }
      effect := Nothing;
    }

    method OneWayChallenge(f: Frame, nowMs: nat) returns (effect: Effect)
      modifies this`solar
      ensures Outcome(View(), effect) == OnOneWayChallenge(old(View()), f, nowMs)
    {
      if pairMode && solar.active && solar.source == Source(f) &&
         Elapsed(nowMs, solar.startedMs) <= LEARN_WINDOW_MS && |f| >= 18
      {
        solar := solar.(data := f[9]);
        solar := solar.(sequence := f[10..12]);
        solar := solar.(hmac := f[12..18]);
        solar := solar.(kind := TypeFromTarget(Target(f)));
        solar := solar.(hasChallenge := true);
      }
      effect := Nothing;
    }

    method VerifySolarChallenge(aes: Encryption, key: Block) returns (ok: bool)
      ensures ok == Verifies(aes, solar, key)
    {
      if !solar.hasChallenge {
        return false;
      }
      var calculated := Create1WHmac(aes, solar.sequence, key, [0x39, solar.data]);
      ok := calculated[..6] == solar.hmac;
    }

    method KeyFrame(aes: Encryption, f: Frame, nowMs: nat, saveOk: bool) returns (effect: Effect)
      modifies this
      ensures Outcome(View(), effect) == OnKeyFrame(aes, old(View()), f, nowMs, saveOk)
    {
      if |f| < 29 {
        return Nothing;
      }
      var keyCap := new bv8[16](i requires 0 <= i < 16 => f[9 + i]);
      assert keyCap[..] == f[9..25];
      Encrypt1WKey(aes, Source(f), keyCap);
      if !pairMode {
        return Nothing;
      }
      var matching := solar.active && solar.source == Source(f) && Elapsed(nowMs, solar.startedMs) <= LEARN_WINDOW_MS;
      var verified := VerifySolarChallenge(aes, keyCap[..]);
      if !matching || !verified {
        return Nothing;
      }
      var sequence := FromBig(f[27], f[28]);
      var learnedType := if solar.kind != 0 then solar.kind else TypeFromTarget(Target(f));
      effect := Imported(Source(f), keyCap[..], Next(sequence), learnedType, f[25], saveOk);
      if saveOk {
        CloseWindow();
      }
    }

    method MsgRcvd(aes: Encryption, f: Frame, nowMs: nat, random: Challenge, saveOk: bool) returns (effect: Effect)
      modifies this
      ensures Outcome(View(), effect) == Step(aes, old(View()), Received(f, nowMs, random, saveOk))
    {
      var command := Command(f);
      if command == 0x29 {
        effect := DiscoverAnswer(f);
      } else if command == 0x32 {
        effect := KeyTransfer(aes, f, random);
      } else if command == 0x3D {
        effect := ChallengeAnswer(aes, f);
      } else if command == 0x2D {
        effect := ActuatorAck(f, random);
      } else if command == 0x30 {
        effect := KeyFrame(aes, f, nowMs, saveOk);
      } else if command == 0x2E {
        effect := Learn(f, nowMs);
      } else if command == 0x39 {
        effect := OneWayChallenge(f, nowMs);
      } else {
        effect := Nothing;
      }
    }
  }
}
