/** The transmit side of the radio object. Its methods change the queue, the active batch and the
    receiver step by step; each is proved to do what the transmit protocol says, so the theorems
    about all its runs hold of them. */
module Sender {
  import opened RadioTypes
  import T = TxProtocol
  import C = TxCalls
  import Q = RadioCalls
  import S = ScanProtocol
  import R = Receiver

  class TxSender {
    const rx: R.ScanReceiver
    var sendQueue: seq<Batch>
    var packets2send: Batch
    var txCounter: nat
    var txComplete: bool
    var txBatchActive: bool
    var currentBatchHas2W: bool
    var txStartedAtUs: nat
    var senderAttached: bool
    var resumeTwoWScanAfterTx: bool
    var resumeTwoWScanUntilMs: nat
    var resumeTwoWScanDwellUs: nat
    var callbackQueue: seq<Packet>
    var inDispatch: Option<Packet>
    ghost var freed: multiset<nat>
    ghost var submitted: seq<Batch>
    ghost var air: seq<AirFrame>

    ghost function View(): T.TxState
      reads this, rx
    {
      T.TxState(rx.scanFreqs != [], sendQueue, packets2send, txCounter, txComplete, txBatchActive, rx.radioState,
                currentBatchHas2W, txStartedAtUs, senderAttached, 0, T.NoStarter, T.Resting,
                callbackQueue, inDispatch, freed, submitted, air)
    }

    ghost function Saved(): S.Saved
      reads `resumeTwoWScanAfterTx, `resumeTwoWScanUntilMs, `resumeTwoWScanDwellUs
    {
      S.Saved(resumeTwoWScanAfterTx, resumeTwoWScanUntilMs, resumeTwoWScanDwellUs)
    }

    /** The radio as a whole. */
    ghost function Whole(): Q.Radio
      reads this, rx
    {
      Q.Radio(View(), rx.View(), Saved())
    }

    constructor (rx: R.ScanReceiver)
      requires rx.View() == S.UNSTARTED
      ensures this.rx == rx && rx.View() == S.UNSTARTED
      ensures View() == T.INIT && Q.Agrees(Whole())
    {
      this.rx := rx;
      sendQueue, packets2send, txCounter, txComplete, txBatchActive := [], [], 0, false, false;
      currentBatchHas2W, txStartedAtUs, senderAttached := false, 0, false;
      resumeTwoWScanAfterTx, resumeTwoWScanUntilMs, resumeTwoWScanDwellUs := false, 0, S.TWOW_SCAN_INTERVAL_US;
      callbackQueue, inDispatch := [], None;
      freed, submitted, air := multiset{}, [], [];
    }

    method QueueSend(iohcTx: Batch)
      modifies this
      ensures View() == T.Queued(old(View()), iohcTx) && Saved() == old(Saved())
    {
      if |iohcTx| == 0 {
        return;
      }
      sendQueue := sendQueue + [iohcTx];
      submitted := submitted + [iohcTx];
    }

    /** The loop of startQueuedSend over the packets of the new batch. */
    static method AnyKeyTransfer(batch: Batch) returns (found: bool)
      ensures found <==> HasKeyTransfer(batch)
    {
      found := false;
      for i := 0 to |batch|
        invariant !found && (forall j :: 0 <= j < i ==> !IsKeyTransfer(batch[j]))
      {
        if IsKeyTransfer(batch[i]) {
          found := true;
          break;
        }
      }
    }

    /** The mutex section: take the next batch unless one is under way. */
    method ClaimFront() returns (won: bool)
      modifies `packets2send, `sendQueue, `txCounter, `txComplete, `txBatchActive
      ensures won == old(C.CanClaim(View()))
      ensures View() == T.Claim(old(View())).(starter := T.NoStarter)
    {
      if txBatchActive || rx.radioState == Tx || |packets2send| != 0 || |sendQueue| == 0 {
        return false;
      }
      packets2send := sendQueue[0];
      sendQueue := sendQueue[1..];
      txCounter := 0;
      txComplete := false;
      txBatchActive := true;
      won := true;
    }

    /** After the mutex section: remember the scan the batch interrupts. */
    method SaveScan(nowMs: nat)
      modifies this
      ensures Saved() == S.Save(rx.View(), nowMs) && View() == old(View())
    {
      var again := rx.twoWScanActive && rx.twoWScanUntilMs > nowMs;
      resumeTwoWScanAfterTx := again;
      resumeTwoWScanUntilMs := if again then rx.twoWScanUntilMs else 0;
      resumeTwoWScanDwellUs := if rx.scanTimeUs != 0 then rx.scanTimeUs else S.TWOW_SCAN_INTERVAL_US;
    }

    /** Tune to the current packet, write it to the FIFO and switch to TX. */
    method EmitPacket(nowUs: nat, long: bool)
      requires txCounter < |packets2send|
      modifies this, rx
      ensures View() == T.Emit(old(View()).(radio := Tx), nowUs, long) && Saved() == old(Saved())
      ensures rx.View() == S.Tuned(old(rx.View()).(radio := Tx), packets2send[txCounter].frequency)
    {
      var packet := packets2send[txCounter];
      rx.SetRadioState(Tx);
      rx.Tune(packet.frequency);
      air := air + [AirFrame(packet.frame, long)];
      txStartedAtUs := nowUs;
    }

    /** The rest of startQueuedSend for the call that won a batch. */
    method Launch(nowUs: nat, nowMs: nat)
      requires txCounter < |packets2send|
      modifies this, rx
      ensures Saved() == S.Save(old(rx.View()), nowMs)
      ensures View() == C.Launched(old(View()), nowUs)
      ensures rx.View() == S.Tuned(old(rx.View()).(radio := Tx), packets2send[txCounter].frequency)
    {
      SaveScan(nowMs);
      var has2W := AnyKeyTransfer(packets2send);
      currentBatchHas2W := has2W;
      EmitPacket(nowUs, true);
      senderAttached := true;
    }

    method StartQueuedSend(nowUs: nat, nowMs: nat)
      requires C.NoEmptyBatch(View())
      modifies this, rx
      ensures Whole() == Q.Started(old(Whole()), nowUs, nowMs)
    {
      var won := ClaimFront();
      if won {
        Launch(nowUs, nowMs);
      }
    }

    method Send(iohcTx: Batch, nowUs: nat, nowMs: nat)
      requires C.NoEmptyBatch(View())
      modifies this, rx
      ensures Whole() == Q.Started(old(Whole()).(tx := T.Queued(old(View()), iohcTx)), nowUs, nowMs)
    {
      QueueSend(iohcTx);
      StartQueuedSend(nowUs, nowMs);
    }

    // ------------------------------------------------------------ the retransmit ticker

    /** PacketSent in the register or two seconds without it complete a transmission. */
    method CheckDone(nowUs: nat, sentFlag: bool) returns (done: bool)
      modifies this
      ensures done == old(T.Completed(View(), nowUs, sentFlag))
      ensures View() == old(View()).(complete := done) && Saved() == old(Saved())
    {
      if sentFlag {
        txComplete := true;
      }
      if !txComplete && nowUs - txStartedAtUs > TXDONE_TIMEOUT_US {
        txComplete := true;
      }
      done := txComplete;
    }

    /** Hand the packet to the callback queue, or delete it if the queue will not take it. */
    method Sent(accepted: bool)
      requires txCounter < |packets2send|
      modifies this
      ensures View() == T.HandOver(old(View()), accepted) && Saved() == old(Saved())
    {
      var packet := packets2send[txCounter];
      if accepted {
        callbackQueue := callbackQueue + [packet];
      } else {
        freed := freed + multiset{packet.id};
      }
    }

    method Retransmit(nowUs: nat)
      requires txCounter < |packets2send|
      modifies this, rx
      ensures Whole() == Q.Emitted(old(Whole()), T.Emit(old(View()).(complete := false, radio := Tx), nowUs, false))
    {
      txComplete := false;
      EmitPacket(nowUs, false);
    }

    method FreeEngine()
      modifies `senderAttached, `packets2send, `currentBatchHas2W, `txBatchActive
      ensures View() == old(View()).(attached := false, active := [], listen := false, batchActive := false)
    {
      senderAttached := false;
      packets2send := [];
      currentBatchHas2W := false;
      txBatchActive := false;
    }

    /** All packets sent: stop the ticker, then put the receiver where it belongs. */
    method FinishBatch(nowMs: nat)
      requires Q.Agrees(Whole())
      modifies this, rx
      ensures Whole() == Q.Ended(old(Whole()), nowMs)
    {
      var start2WListen := currentBatchHas2W;
      FreeEngine();
      rx.AfterBatch(resumeTwoWScanAfterTx, resumeTwoWScanUntilMs, resumeTwoWScanDwellUs, start2WListen, nowMs);
      resumeTwoWScanAfterTx := false;
      resumeTwoWScanUntilMs := 0;
    }

    /** onTxTicker after `sent`. */
    method NextPacket(nowUs: nat, nowMs: nat)
      requires txCounter < |packets2send| && Q.Settled(Whole())
      modifies this, rx
      ensures Whole() == Q.Advanced(old(Whole()), nowUs, nowMs)
    {
      hide T.Emit, T.Claim, S.EndOfBatch, S.Tuned, C.Started, C.Ended, Q.Started, Q.Ended;
      txCounter := (txCounter + 1) % 256;
      if txCounter == |packets2send| {
        Q.EndedSettled(Whole(), nowMs);
        FinishBatch(nowMs);
        StartQueuedSend(nowUs, nowMs);
      } else {
        Retransmit(nowUs);
      }
    }

    /** The packet goes on air once more and has one repetition less to go. */
    method RepeatPacket(nowUs: nat)
      requires txCounter < |packets2send| && packets2send[txCounter].repeats > 0
      modifies this, rx
      ensures Whole() ==
        Q.Emitted(old(Whole()), T.Emit(T.Repeated(old(View())).(complete := false, radio := Tx), nowUs, false))
    {
      var packet := packets2send[txCounter];
      packets2send := packets2send[txCounter := packet.(repeats := packet.repeats - 1)];
      Retransmit(nowUs);
    }

    /** The last transmission of a packet is over: hand it over and go on. */
    method PacketDone(nowUs: nat, nowMs: nat, accepted: bool)
      requires txCounter < |packets2send| && Q.Settled(Whole())
      modifies this, rx
      ensures Whole() == Q.Advanced(old(Whole()).(tx := T.HandOver(old(View()), accepted)), nowUs, nowMs)
    {
      Sent(accepted);
      NextPacket(nowUs, nowMs);
    }

    method OnTxTicker(nowUs: nat, nowMs: nat, sentFlag: bool, accepted: bool)
      requires txCounter < |packets2send| && Q.Settled(Whole())
      modifies this, rx
      ensures Whole() == Q.Ticked(old(Whole()), nowUs, nowMs, sentFlag, accepted)
      ensures !old(txComplete) && !sentFlag && nowUs <= old(txStartedAtUs) + 2_000_000 ==> Whole() == old(Whole())
    {
      hide T.Emit, C.Started, C.Ended, C.Advanced, Q.Started, Q.Advanced, S.Tuned;
      var done := CheckDone(nowUs, sentFlag);
      if !done {
        return;
      }
      if packets2send[txCounter].repeats > 0 {
        RepeatPacket(nowUs);
      } else {
        PacketDone(nowUs, nowMs, accepted);
      }
    }

    /** One round of the callback task: take a packet off the queue, dispatch it, delete it. */
    method CallbackTask()
      requires inDispatch == None
      modifies this
      ensures Whole() == old(Whole()).(tx := Q.Dispatched(old(View())))
    {
      if |callbackQueue| != 0 {
        inDispatch := Some(callbackQueue[0]);
        callbackQueue := callbackQueue[1..];
        freed := freed + multiset{inDispatch.value.id};
        inDispatch := None;
      }
    }
  }
}
