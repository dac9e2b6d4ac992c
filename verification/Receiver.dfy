/** The receive side of the radio object: scan fields, carrier and radioState. Its methods change
    the fields step by step, and each is proved to do what the scan protocol says. */
module Receiver {
  import opened RadioTypes
  import S = ScanProtocol

  class ScanReceiver {
    var scanFreqs: seq<nat>
    var twoWScanActive: bool
    var twoWScanUntilMs: nat
    var numFreqs: nat
    var scanTimeUs: nat
    var normalScanTimeUs: nat
    var currentFreqIdx: nat
    var tickCounter: nat
    var preCounter: nat
    var carrier: nat
    var radioState: RadioState

    ghost function View(): S.Scan
      reads this
    {
      S.Scan(scanFreqs, twoWScanActive, twoWScanUntilMs, numFreqs, scanTimeUs, normalScanTimeUs,
             currentFreqIdx, tickCounter, preCounter, carrier, radioState)
    }

    constructor ()
      ensures View() == S.UNSTARTED
    {
      scanFreqs, twoWScanActive, twoWScanUntilMs, numFreqs, scanTimeUs := [], false, 0, 0, 0;
      normalScanTimeUs, currentFreqIdx, tickCounter, preCounter, carrier := S.DEFAULT_SCAN_INTERVAL_US, 0, 0, 0, 0;
      radioState := Idle;
    }

    method SetRadioState(newState: RadioState)
      modifies this
      ensures View() == old(View()).(radio := newState)
    {
      if radioState == newState {
        return;
      }
      radioState := newState;
    }

    method Tune(frequency: nat)
      modifies this
      ensures View() == S.Tuned(old(View()), frequency)
    {
      if frequency != 0 {
        carrier := frequency;
      }
    }

    method Start(channels: seq<nat>, scanUs: nat)
      requires 0 < |channels| <= 255
      modifies this
      ensures View() == S.Start(old(View()), channels, scanUs) && S.ScanInv(View())
    {
      scanFreqs := channels;
      normalScanTimeUs := if scanUs != 0 then scanUs else S.DEFAULT_SCAN_INTERVAL_US;
      scanTimeUs := normalScanTimeUs;
      numFreqs := 1;
      currentFreqIdx := 0;
      twoWScanActive := false;
      twoWScanUntilMs := 0;
      carrier := channels[0];
      radioState := Rx;
    }

    method StartTwoWScan(windowMs: nat, dwellUs: nat, nowMs: nat)
      modifies this
      ensures View() == S.StartTwoWScan(old(View()), windowMs, dwellUs, nowMs)
    {
      if |scanFreqs| == 0 {
        return;
      }
      twoWScanActive := true;
      twoWScanUntilMs := nowMs + windowMs;
      numFreqs := |scanFreqs|;
      scanTimeUs := if dwellUs != 0 then dwellUs else S.TWOW_SCAN_INTERVAL_US;
      if numFreqs > 1 && scanTimeUs == normalScanTimeUs {
        scanTimeUs := S.TWOW_SCAN_INTERVAL_US;
      }
      currentFreqIdx := 0;
      tickCounter := 0;
      preCounter := 0;
      carrier := scanFreqs[currentFreqIdx];
      radioState := Rx;
    }

    method StopTwoWScan()
      modifies this
      ensures View() == S.StopTwoWScan(old(View()))
    {
      if |scanFreqs| == 0 {
        return;
      }
      twoWScanActive := false;
      twoWScanUntilMs := 0;
      numFreqs := 1;
      scanTimeUs := normalScanTimeUs;
      currentFreqIdx := 0;
      tickCounter := 0;
      preCounter := 0;
      carrier := scanFreqs[currentFreqIdx];
      radioState := Rx;
    }

    /** The receiver's branch of the end-of-batch section. */
    method AfterBatch(resume: bool, resumeUntilMs: nat, resumeDwellUs: nat, start2WListen: bool, nowMs: nat)
      modifies this
      ensures View() == S.EndOfBatch(old(View()), S.Saved(resume, resumeUntilMs, resumeDwellUs), start2WListen, nowMs)
    {
      if resume && resumeUntilMs > nowMs {
        StartTwoWScan(resumeUntilMs - nowMs, resumeDwellUs, nowMs);
      } else if start2WListen {
        StartTwoWScan(S.TWOW_SCAN_WINDOW_MS, S.TWOW_SCAN_INTERVAL_US, nowMs);
      } else if twoWScanActive {
        StopTwoWScan();
      } else {
        SetRadioState(Rx);
      }
    }

    /** The frequency-hopping tail of tickerCounter. */
    method Dwell()
      requires S.ScanInv(View())
      modifies this
      ensures View() == if old(radioState) == Rx then S.Hop(old(View())) else old(View())
    {
      if radioState != Rx {
        return;
      }
      tickCounter := tickCounter + 1;
      if tickCounter * S.GRANULARITY_US < scanTimeUs {
        return;
      }
      tickCounter := 0;
      if numFreqs == 1 {
        return;
      }
      currentFreqIdx := currentFreqIdx + 1;
      if currentFreqIdx >= numFreqs {
        currentFreqIdx := 0;
      }
      carrier := scanFreqs[currentFreqIdx];
      radioState := Rx;
    }

    /** tickerCounter from its RX test on. */
    method ListenTick(o: S.Seen)
      requires S.ScanInv(View())
      modifies this
      ensures View() == S.ListenTick(old(View()), o)
    {
      if radioState != Rx {
        return;
      }
      if twoWScanActive && o.nowMs >= twoWScanUntilMs {
        StopTwoWScan();
        return;
      }
      if twoWScanActive && o.payloadReady && o.freshIrq {
        radioState := Rx;
        tickCounter := 0;
        preCounter := 0;
        return;
      }
      Dwell();
    }

    /** A preamble that lasts too long is given up. */
    method PreambleTick()
      requires radioState == Preamble
      modifies this
      ensures View() == S.AfterPreamble(old(View()))
    {
      tickCounter := 0;
      preCounter := preCounter + 1;
      if preCounter * S.GRANULARITY_US >= S.PREAMBLE_RECOVERY_US {
        radioState := Rx;
        preCounter := 0;
      }
    }

    method TickerCounter(o: S.Seen)
      requires S.ScanInv(View())
      modifies this
      ensures View() == S.TickerCounter(old(View()), o)
    {
      if o.batchActive {
        return;
      }
      if radioState == Payload {
        if o.txReady {
          radioState := Rx;
          return;
        }
        radioState := Rx;
        tickCounter := 0;
        preCounter := 0;
        return;
      }
      if radioState == Preamble {
        if o.payloadReady {
          radioState := Rx;
          tickCounter := 0;
          preCounter := 0;
          return;
        }
        PreambleTick();
      }
      ListenTick(o);
    }
  }
}
