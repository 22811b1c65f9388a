/**
 src/packet.c in place: one object whose fields the functions update, byte by byte.
 Every method is proved to do to the object what its namesake in PacketModel does to
 the state it stands for.
 */
module PacketEngine {
  import opened Bytes
  import opened PacketModel
  import opened Walker
  import opened FoldLaws
  import TimeLaws

  const NO_FRAME: CaptureFrame := CaptureFrame(0, 0, [])

  class Packet {
    const opts: Opts
    // The records handed to the pcapng writer.
    var out: seq<Record>
    var captureLimit: int
    var done: bool

    const captureData: array<byte>
    var captureDataPtr: nat
    var captureSize: int
    var captureHeader: bool
    var captureStatus: bool
    var captureToggle: int
    var captureLs: int
    var captureVbus: int
    var captureTriggerInput: int
    var captureSpeedIn: int
    var captureEnabled: bool
    var captureTsInt: u64
    var captureTs: u64
    var captureLastTs: u64
    var captureOverflow: bool
    var captureCrcError: bool
    var captureDataError: bool
    var captureDuration: int

    const captureFoldBuf: array<CaptureFrame>
    var captureFoldBufPtr: nat
    var captureFoldCount: int
    var captureSavedLs: int
    var captureSavedTs: u64

    ghost var keepalives: nat

    ghost predicate Valid()
      reads this
    {
      && captureData.Length == DATA_BUF_SIZE
      && captureFoldBuf.Length == FOLD_BUF_SIZE
      && captureFoldBufPtr <= FOLD_BUF_SIZE
    }

    ghost function WalkView(): Walk
      reads this, captureData
    {
      Walk(captureData[..], captureDataPtr, captureSize, captureHeader, captureStatus, captureToggle,
           captureLs, captureVbus, captureTriggerInput, captureSpeedIn, captureEnabled, captureTsInt, captureTs,
           captureOverflow, captureCrcError, captureDataError, captureDuration)
    }

    ghost function View(): State
      requires Valid()
      reads this, captureData, captureFoldBuf
    {
      State(WalkView(), captureLastTs, captureFoldBuf[..captureFoldBufPtr], captureFoldCount,
            captureSavedLs, captureSavedTs, captureLimit, done, keepalives, out)
    }

    constructor (opts: Opts, limit: int)
      ensures Valid() && View() == Fresh(limit) && this.opts == opts
      ensures fresh(captureData) && fresh(captureFoldBuf)
    {
      this.opts := opts;
      captureLimit, done, out, keepalives := limit, false, [], 0;
      captureData := new byte[DATA_BUF_SIZE](i => 0);
      captureDataPtr, captureSize, captureHeader, captureStatus := 0, 0, true, false;
      captureToggle, captureLs, captureVbus := 0, -1, -1;
      captureTriggerInput, captureSpeedIn, captureEnabled := -1, -1, false;
      captureTsInt, captureTs, captureLastTs := 0, 0, 0;
      captureOverflow, captureCrcError, captureDataError, captureDuration := false, false, false, 0;
      captureFoldBuf := new CaptureFrame[FOLD_BUF_SIZE](i => NO_FRAME);
      captureFoldBufPtr, captureFoldCount := 0, 0;
      captureSavedLs, captureSavedTs := LS_INVALID, 0;
      new;
      assert captureData[..] == FreshWalk().data;
    }

    method EffectiveSpeedNow() returns (speed: int)
      ensures speed == EffectiveSpeed(opts, WalkView())
    {
      if captureSpeedIn == SPEED_LS && opts.speed != SPEED_RESET && opts.speed != SPEED_LS {
        return opts.speed;
      }
      return captureSpeedIn;
    }

    // ---- Emitters ----

    method Write(r: Record)
      requires Valid()
      modifies `out, `captureLastTs
      ensures View() == Emit(old(View()), r)
    {
      out := out + [r];
      captureLastTs := r.ts;
    }

    method DoCaptureInfo(ts: u64, note: Note)
      requires Valid()
      modifies `out, `captureLastTs, `captureSavedLs
      ensures View() == CaptureInfo(opts, old(View()), ts, note)
      decreases captureSavedLs != LS_INVALID, 1
    {
      DoLineStateEvent();
      Write(Info(ts, note));
    }

    method DoLineStateEvent()
      requires Valid()
      modifies `out, `captureLastTs, `captureSavedLs
      ensures View() == LineStateEvent(opts, old(View()))
      decreases captureSavedLs != LS_INVALID, 0
    {
      hide ToS32, Wrap64;
      var savedLs := captureSavedLs;
      var delta := ToS32(Wrap64(captureTs - captureSavedTs));
      if savedLs == LS_INVALID {
        return;
      }
      captureSavedLs := LS_INVALID;
      if opts.excludeLineState {
        return;
      }
      var speed := EffectiveSpeedNow();
      DoCaptureInfo(captureSavedTs, LineState(savedLs, delta, speed == SPEED_LS));
    }

    method Say(note: Note)
      requires Valid()
      modifies `out, `captureLastTs, `captureSavedLs
      ensures View() == Now(opts, old(View()), note)
    {
      DoCaptureInfo(captureTs, note);
    }

    method DoTimeoutEvent()
      requires Valid()
      modifies `out, `captureLastTs, `captureSavedLs
      ensures View() == TimeoutEvent(opts, old(View()))
    {
      if captureEnabled {
        Say(PeriodicUpdate);
      }
    }

    method Finish()
      requires Valid()
      modifies `done
      ensures View() == old(View()).(done := true)
    {
      done := true;
    }

    method DoCheckCaptureLimit()
      requires Valid()
      modifies `out, `captureLastTs, `captureSavedLs, `captureLimit, `done
      ensures View() == CheckCaptureLimit(opts, old(View()))
    {
      hide CaptureInfo;
      captureLimit := captureLimit - 1;
      if captureLimit == 0 {
        Say(LimitReached);
        Finish();
      }
    }

    // ---- Folding ----

    method DoStopFolding()
      requires Valid()
      modifies `out, `captureLastTs, `captureSavedLs, `captureFoldCount, `captureFoldBufPtr
      ensures Valid() && View() == StopFolding(opts, old(View()))
      ensures captureFoldBufPtr == 0
    {
      hide CaptureInfo, LineStateEvent;
      var count, ptr := captureFoldCount, captureFoldBufPtr;
      if count == 0 && ptr == 0 {
        return;
      }
      ghost var entries := captureFoldBuf[..ptr];
      captureFoldCount := 0;
      captureFoldBufPtr := 0;
      ghost var base := View();
      assert base == old(View()).(foldCount := 0, foldBuf := []);
      assert entries[..0] == [];
      for i := 0 to ptr
        invariant Valid() && captureFoldBufPtr == 0 && captureFoldBuf[..ptr] == entries
        invariant View() == WriteAllFolded(opts, base, entries[..i])
      {
        var f := captureFoldBuf[i];
        assert f == entries[i];
        assert entries[..i + 1][..i] == entries[..i];
        var ts := f.ts;
        if ts < captureLastTs {
          ts := captureLastTs;
        }
        if f.size < 0 {
          DoCaptureInfo(ts, KeepAlive);
        } else {
          Write(Frame(ts, f.data, false));
        }
      }
      assert entries[..ptr] == entries;
      if count >= 1 {
        Say(Folded(count));
      }
    }

    method FoldEntry(f: CaptureFrame)
      requires Valid() && captureFoldBufPtr < FOLD_BUF_SIZE
      modifies captureFoldBuf, `captureFoldBufPtr
      ensures Valid() && View() == old(View()).(foldBuf := old(View()).foldBuf + [f])
    {
      captureFoldBuf[captureFoldBufPtr] := f;
      captureFoldBufPtr := captureFoldBufPtr + 1;
      assert captureFoldBuf[..captureFoldBufPtr] == old(captureFoldBuf[..captureFoldBufPtr]) + [f];
    }

    method NextBatch()
      requires Valid()
      modifies `captureFoldCount, `captureFoldBufPtr
      ensures Valid() && View() == old(View()).(foldCount := old(captureFoldCount) + 1, foldBuf := [])
      ensures captureFoldBufPtr == 0
    {
      captureFoldCount := captureFoldCount + 1;
      captureFoldBufPtr := 0;
    }

    /** The shared tail of fold_keepalive and the folded SOF: count the batch, then buffer the entry. */
    method DoRefold(foldLimit: int, f: CaptureFrame)
      requires Valid()
      modifies captureFoldBuf, `out, `captureLastTs, `captureSavedLs, `captureFoldCount, `captureFoldBufPtr
      ensures Valid() && View() == Refold(opts, old(View()), foldLimit, f)
    {
      hide StopFolding;
      if captureFoldBufPtr != 0 {
        NextBatch();
        if captureFoldCount == foldLimit {
          DoStopFolding();
        }
        FoldEntry(f);
      } else {
        FoldEntry(f);
      }
    }

    method DoKeepaliveEvent(ts: u64, delta: int)
      requires Valid()
      modifies captureFoldBuf, `out, `captureLastTs, `captureSavedLs, `captureFoldCount, `captureFoldBufPtr,
               `captureLimit, `done, `keepalives
      ensures Valid() && View() == KeepaliveEvent(opts, old(View()), ts, delta)
    {
      hide CaptureInfo, Refold, CheckCaptureLimit;
      if !captureEnabled {
        return;
      }
      keepalives := keepalives + 1;
      if !opts.foldEmpty {
        DoCaptureInfo(ts, KeepAlive);
      } else {
        DoRefold(FOLD_LIMIT_LS_FS, CaptureFrame(ts, -delta, []));
      }
      DoCheckCaptureLimit();
    }

    // ---- Frames ----

    method DoDataPrelude()
      requires Valid()
      modifies `out, `captureLastTs, `captureSavedLs, `captureFoldCount, `captureFoldBufPtr
      ensures Valid() && View() == DataPrelude(opts, old(View()))
      ensures captureFoldBufPtr < FOLD_BUF_SIZE
    {
      hide CaptureInfo, LineStateEvent, StopFolding, Now;
      DoLineStateEvent();
      if captureOverflow || captureCrcError || captureDataError || captureFoldBufPtr == FOLD_BUF_SIZE {
        DoStopFolding();
      }
      if captureOverflow {
        Say(HardwareOverflow);
      }
      if captureDataError {
        Say(PhyError);
      }
    }

    method DoFoldOrWrite()
      requires Valid() && captureFoldBufPtr < FOLD_BUF_SIZE && 0 < captureSize <= DATA_BUF_SIZE
      modifies captureFoldBuf, `out, `captureLastTs, `captureSavedLs, `captureFoldCount, `captureFoldBufPtr
      ensures Valid() && View() == FoldOrWrite(opts, old(View()))
    {
      hide Refold, StopFolding, EffectiveSpeed;
      var dataError := captureCrcError || captureDataError;
      var speed := EffectiveSpeedNow();
      var allowSof := speed != SPEED_LS;
      var pid := captureData[0];
      var payload := captureData[..captureSize];
      assert payload == Payload(WalkView());
      if dataError || !opts.foldEmpty {
        Write(Frame(captureTs, payload, dataError));
      } else if captureFoldBufPtr != 0 {
        if pid == PID_IN || pid == PID_NAK {
          FoldEntry(CaptureFrame(captureTs, captureSize, payload));
        } else if pid == PID_SOF && allowSof {
          DoRefold(if speed == SPEED_HS then FOLD_LIMIT_HS else FOLD_LIMIT_LS_FS,
                   CaptureFrame(captureTs, captureSize, payload));
        } else {
          DoStopFolding();
          Write(Frame(captureTs, payload, false));
        }
      } else {
        if pid == PID_SOF && allowSof {
          DoRefold(if speed == SPEED_HS then FOLD_LIMIT_HS else FOLD_LIMIT_LS_FS,
                   CaptureFrame(captureTs, captureSize, payload));
        } else {
          Write(Frame(captureTs, payload, false));
        }
      }
    }

    method DoDataEvent()
      requires Valid() && 0 < captureSize <= DATA_BUF_SIZE
      modifies captureFoldBuf, `out, `captureLastTs, `captureSavedLs, `captureFoldCount, `captureFoldBufPtr,
               `captureLimit, `done
      ensures Valid() && View() == DataEvent(opts, old(View()))
    {
      hide DataPrelude, FoldOrWrite, CheckCaptureLimit;
      if !captureEnabled {
        return;
      }
      DoDataPrelude();
      DoFoldOrWrite();
      DoCheckCaptureLimit();
    }

    // ---- Bus status ----

    method SetTrigger(enabled: bool, trigger: int)
      modifies `captureEnabled, `captureTriggerInput
      ensures captureEnabled == enabled && captureTriggerInput == trigger
    {
      captureEnabled := enabled;
      captureTriggerInput := trigger;
    }

    method ApplyTrigger(trigger: int)
      requires Valid()
      modifies `captureEnabled, `captureTriggerInput
      ensures View() == old(View()).(w := old(WalkView()).(
        enabled := TriggerEnabled(opts.trigger, old(WalkView()), trigger), trig := trigger))
    {
      hide TriggerEnabled;
      var enabled := TriggerAllows(trigger);
      SetTrigger(enabled, trigger);
    }

    method TriggerAllows(trigger: int) returns (enabled: bool)
      ensures enabled == TriggerEnabled(opts.trigger, WalkView(), trigger)
    {
      match opts.trigger {
        case Disabled => enabled := true;
        case Low => enabled := trigger == 0;
        case High => enabled := trigger == 1;
        case Falling => enabled := captureEnabled || (trigger == 0 && captureTriggerInput == 1);
        case Rising => enabled := captureEnabled || (trigger == 1 && captureTriggerInput == 0);
      }
    }

    method DoTriggerChange(trigger: int)
      requires Valid()
      modifies `out, `captureLastTs, `captureSavedLs, `captureEnabled, `captureTriggerInput
      ensures View() == TriggerChange(opts, old(View()), trigger)
    {
      hide CaptureInfo, LineStateEvent, Now, TriggerEnabled;
      ghost var s := View();
      if captureTriggerInput != trigger {
        var wasEnabled := captureEnabled;
        ApplyTrigger(trigger);
        Say(TriggerInput(captureTriggerInput));
        AnnounceEnable(wasEnabled);
      }
    }

    method AnnounceEnable(wasEnabled: bool)
      requires Valid()
      modifies `out, `captureLastTs, `captureSavedLs
      ensures View() == (if captureEnabled && !wasEnabled then Now(opts, old(View()), StartingCapture)
                         else if wasEnabled && !captureEnabled then Now(opts, old(View()), WaitingForTrigger)
                         else old(View()))
    {
      hide Now;
      if captureEnabled && !wasEnabled {
        Say(StartingCapture);
      } else if wasEnabled && !captureEnabled {
        Say(WaitingForTrigger);
      }
    }

    method DoVbusChange(vbus: int)
      requires Valid()
      modifies `out, `captureLastTs, `captureSavedLs, `captureVbus
      ensures View() == VbusChange(opts, old(View()), vbus)
    {
      hide CaptureInfo, Now;
      if captureVbus != vbus {
        captureVbus := vbus;
        Say(Vbus(captureVbus != 0));
      }
    }

    method DoSpeedChange(speed: int)
      requires Valid()
      modifies `out, `captureLastTs, `captureSavedLs, `captureSpeedIn
      ensures View() == SpeedChange(opts, old(View()), speed)
    {
      hide CaptureInfo, Now;
      if captureSpeedIn != speed {
        captureSpeedIn := speed;
        if captureEnabled {
          if speed == SPEED_RESET {
            Say(BusReset);
          } else {
            Say(DetectedSpeed(captureSpeedIn));
          }
        }
      }
    }

    method NoteLineState(ls: int)
      requires Valid()
      modifies `captureLs
      ensures View() == old(View()).(w := old(WalkView()).(ls := ls))
    {
      captureLs := ls;
    }

    method DropPending()
      requires Valid()
      modifies `captureSavedLs
      ensures View() == old(View()).(savedLs := LS_INVALID)
    {
      captureSavedLs := LS_INVALID;
    }

    /** Keep the line state until the next record is written. */
    method Defer(ls: int)
      requires Valid()
      modifies `captureSavedLs, `captureSavedTs
      ensures View() == old(View()).(savedLs := ls, savedTs := captureTs)
    {
      captureSavedLs := ls;
      captureSavedTs := captureTs;
    }

    method DoLineChange(ls: int)
      requires Valid()
      modifies captureFoldBuf, `out, `captureLastTs, `captureSavedLs, `captureSavedTs, `captureFoldCount,
               `captureFoldBufPtr, `captureLimit, `done, `keepalives, `captureLs
      ensures Valid() && View() == LineChange(opts, old(View()), ls)
    {
      hide LineStateEvent, KeepaliveEvent, EffectiveSpeed, ToS32, Wrap64;
      ghost var s := View();
      if captureLs != ls {
        var delta := ToS32(Wrap64(captureTs - captureSavedTs));
        var speed := EffectiveSpeedNow();
        NoteLineState(ls);
        if speed == SPEED_LS && captureSavedLs == LS_SE0 && ls == LS_J3
           && MIN_KEEPALIVE_DURATION < delta && delta < MAX_KEEPALIVE_DURATION {
          DropPending();
          DoKeepaliveEvent(captureSavedTs, delta);
        } else {
          DoLineStateEvent();
          Defer(ls);
        }
      }
    }

    method DoStatusEvent(ls: int, vbus: int, trigger: int, speed: int)
      requires Valid()
      modifies captureFoldBuf, `out, `captureLastTs, `captureSavedLs, `captureSavedTs, `captureFoldCount,
               `captureFoldBufPtr, `captureLimit, `done, `keepalives, `captureLs, `captureEnabled,
               `captureTriggerInput, `captureVbus, `captureSpeedIn
      ensures Valid() && View() == StatusEvent(opts, old(View()), ls, vbus, trigger, speed)
    {
      hide TriggerChange, VbusChange, SpeedChange, LineChange;
      DoTriggerChange(trigger);
      DoVbusChange(vbus);
      DoSpeedChange(speed);
      DoLineChange(ls);
    }

    // ---- The byte-driven walk ----

    method ResetFields()
      modifies `captureSize, `captureDataPtr, `captureHeader, `captureStatus
      ensures captureSize == 0 && captureDataPtr == 0 && captureHeader && !captureStatus
    {
      captureSize := 0;
      captureDataPtr := 0;
      captureHeader := true;
      captureStatus := false;
    }

    method ResetAssembler()
      requires Valid()
      modifies `captureSize, `captureDataPtr, `captureHeader, `captureStatus
      ensures View() == old(View()).(w := Resync(old(WalkView())))
    {
      ResetFields();
    }

    /** Report the header octets assembled so far. */
    method SayHeader()
      requires Valid() && captureSize <= DATA_BUF_SIZE
      modifies `out, `captureLastTs, `captureSavedLs
      ensures View() == Now(opts, old(View()), PacketHeader(old(captureData[..])[..HeaderDump(captureSize)]))
    {
      hide Now;
      var dump := HeaderDump(captureSize);
      assert captureData[..dump] == captureData[..][..dump];
      Say(PacketHeader(captureData[..dump]));
    }

    method DoDesyncError()
      requires Valid() && captureSize <= DATA_BUF_SIZE
      modifies `out, `captureLastTs, `captureSavedLs, `captureSize, `captureDataPtr, `captureHeader, `captureStatus
      ensures View() == DesyncError(opts, old(View()))
    {
      hide CaptureInfo, LineStateEvent, Now, Resync;
      Say(Desynchronized);
      SayHeader();
      ResetAssembler();
    }

    method DoCheckHeader(toggle: int, zero: int)
      requires Valid() && captureSize <= DATA_BUF_SIZE
      modifies `out, `captureLastTs, `captureSavedLs, `captureSize, `captureDataPtr, `captureHeader, `captureStatus
      ensures View() == CheckHeader(opts, old(View()), toggle, zero)
    {
      hide CaptureInfo, Now, DesyncError;
      if toggle == captureToggle && zero == 0 {
        return;
      }
      if toggle != captureToggle {
        Say(BadToggle(toggle, captureToggle));
      }
      if zero != 0 {
        Say(ZeroBitSet);
      }
      DoDesyncError();
    }

    method SetClock(tsInt: u64, ts: u64, toggle: int)
      modifies `captureTsInt, `captureTs, `captureToggle
      ensures captureTsInt == tsInt && captureTs == ts && captureToggle == toggle
    {
      captureTsInt := tsInt;
      captureTs := ts;
      captureToggle := toggle;
    }

    method AdvanceClock()
      requires Valid()
      modifies `captureTsInt, `captureTs, `captureToggle
      ensures View() == old(View()).(w := Tick(old(WalkView())))
    {
      hide ClockNs, Wrap64, Flag;
      var ts20 := captureData[0] as int % 16 * 0x1_0000 + captureData[1] as int * 0x100 + captureData[2] as int;
      var toggle := Flag(captureData[0], 0x40);
      var tsInt := if Flag(captureData[0], 0x10) == 1 then Wrap64(captureTsInt + 0x10_0000) else captureTsInt;
      SetClock(tsInt, ClockNs(tsInt, ts20), 1 - toggle);
    }

    method SetPayload(size: int, overflow: bool, crcError: bool, dataError: bool, duration: int)
      modifies `captureSize, `captureOverflow, `captureCrcError, `captureDataError, `captureDuration,
               `captureHeader, `captureDataPtr
      ensures captureSize == size && captureOverflow == overflow && captureCrcError == crcError
      ensures captureDataError == dataError && captureDuration == duration
      ensures captureHeader == (size == 0) && captureDataPtr == 0
    {
      captureSize := size;
      captureOverflow := overflow;
      captureCrcError := crcError;
      captureDataError := dataError;
      captureDuration := duration;
      captureHeader := captureSize == 0;
      captureDataPtr := 0;
    }

    method BeginPayload(size: int)
      requires Valid()
      modifies `captureSize, `captureOverflow, `captureCrcError, `captureDataError, `captureDuration,
               `captureHeader, `captureDataPtr
      ensures View() == old(View()).(w := StartPayload(old(WalkView()), size))
    {
      hide Flag;
      ghost var d := captureData[..];
      var b3, b5, b6 := captureData[3], captureData[5], captureData[6];
      assert d[3] == b3 && d[5] == b5 && d[6] == b6;
      SetPayload(size - DATA_HEADER_SIZE, Flag(b3, 0x08) == 1, Flag(b3, 0x10) == 1, Flag(b3, 0x20) == 1,
                 b5 as int * 0x100 + b6 as int);
      assert captureData[..] == d;
    }

    method DoHeaderDone()
      requires Valid() && captureSize <= DATA_BUF_SIZE
      modifies this, captureFoldBuf
      ensures Valid() && View() == HeaderDone(opts, old(View()))
    {
      hide Tick, FrameSize, StatusEvent, CheckHeader, DesyncError, StartPayload, Now, TimeoutEvent, ToS64, Wrap64, Flag,
           CaptureInfo;
      ghost var s := View();
      CheckAndClock();
      ghost var c := View();
      assert c.w.data == captureData[..];
      if captureStatus {
        var d3 := captureData[3];
        DoStatusEvent(d3 % 16, Flag(d3, 0x10), Flag(d3, 0x20), d3 / 0x40);
        Restart();
      } else {
        var size := SizeField();
        if size < DATA_HEADER_SIZE || size > MAX_DATA_SIZE {
          Say(BadSize(size));
          DoDesyncError();
          return;
        }
        BeginPayload(size);
      }
    }

    /** The first half of a completed header: check it, move the clock, notice a long silence. */
    method CheckAndClock()
      requires Valid() && captureSize <= DATA_BUF_SIZE
      modifies `out, `captureLastTs, `captureSavedLs, `captureSize, `captureDataPtr, `captureHeader, `captureStatus,
               `captureTsInt, `captureTs, `captureToggle
      ensures Valid() && captureSize <= DATA_BUF_SIZE && View() == HeaderFront(opts, old(View()))
    {
      hide Tick, CheckHeader, Now, TimeoutEvent, ToS64, Wrap64, Flag;
      ghost var s := View();
      var toggle := Flag(captureData[0], 0x40);
      var zero := Flag(captureData[0], 0x20);
      SameCheck(opts, s, toggle, zero);
      DoCheckHeader(toggle, zero);
      TickKeeps(WalkView());
      AdvanceClock();
      if ToS64(Wrap64(captureTs - captureLastTs)) > UPDATE_INTERVAL {
        DoTimeoutEvent();
      }
    }

    method SizeField() returns (size: int)
      requires Valid()
      ensures size == FrameSize(WalkView())
    {
      size := captureData[3] as int % 8 * 0x100 + captureData[4] as int;
    }

    method SetKind(status: bool)
      modifies `captureStatus, `captureSize
      ensures captureStatus == status && captureSize == (if status then STATUS_HEADER_SIZE else DATA_HEADER_SIZE)
    {
      captureStatus := status;
      captureSize := if captureStatus then STATUS_HEADER_SIZE else DATA_HEADER_SIZE;
    }

    method PutByte(b: byte)
      requires captureDataPtr < captureData.Length && (captureData as object) != (captureFoldBuf as object)
      modifies captureData, `captureDataPtr
      ensures captureData[..] == old(captureData[..])[old(captureDataPtr) := b]
      ensures captureDataPtr == old(captureDataPtr) + 1
      ensures captureFoldBuf[..] == old(captureFoldBuf[..])
    {
      captureData[captureDataPtr] := b;
      captureDataPtr := captureDataPtr + 1;
    }

    method StoreByte(b: byte)
      requires Valid() && captureDataPtr < DATA_BUF_SIZE
      modifies captureData, `captureDataPtr, `captureStatus, `captureSize
      ensures View() == old(View()).(w := Store(old(WalkView()), b))
    {
      ghost var f := captureFoldBuf[..];
      assert f[..captureFoldBufPtr] == captureFoldBuf[..captureFoldBufPtr];
      if captureHeader && captureDataPtr == 0 {
        SetKind(b < 0x80);
      }
      PutByte(b);
      assert captureFoldBuf[..captureFoldBufPtr] == captureFoldBuf[..][..captureFoldBufPtr];
    }

    method DoCaptureSm(b: byte)
      requires Valid() && WalkOk(WalkView())
      modifies this, captureData, captureFoldBuf
      ensures Valid() && View() == CaptureSm(opts, old(View()), b) && WalkOk(WalkView())
    {
      hide HeaderDone, PayloadDone;
      ghost var s := View();
      SameWalk(opts, s, b);
      assert View().w == WalkView();
      StoreByte(b);
      assert View() == s.(w := Store(s.w, b));
      if captureDataPtr < captureSize {
        return;
      }
      if captureHeader {
        DoHeaderDone();
      } else {
        FinishPayload();
      }
    }

    method ExpectHeader()
      requires Valid()
      modifies `captureHeader
      ensures View() == old(View()).(w := old(WalkView()).(header := true))
    {
      captureHeader := true;
    }

    method Restart()
      requires Valid()
      modifies `captureDataPtr
      ensures View() == old(View()).(w := old(WalkView()).(ptr := 0))
    {
      captureDataPtr := 0;
    }

    method FinishPayload()
      requires Valid() && 0 < captureSize <= DATA_BUF_SIZE
      modifies captureFoldBuf, `out, `captureLastTs, `captureSavedLs, `captureFoldCount, `captureFoldBufPtr,
               `captureLimit, `done, `captureHeader, `captureDataPtr
      ensures Valid() && View() == PayloadDone(opts, old(View()))
    {
      hide DataEvent;
      ghost var s := View();
      ExpectHeader();
      DoDataEvent();
      Restart();
    }

    /** packet_feed. What the runs of it satisfy is the matter of FoldLaws, FoldCount and TimeLaws. */
    method DoFeed(data: seq<byte>)
      requires Valid() && WalkOk(WalkView())
      modifies this, captureData, captureFoldBuf
      ensures Valid() && View() == Feed(opts, old(View()), data) && WalkOk(WalkView())
    {
      hide CaptureSm, WalkOk;
      ghost var s := View();
      if done {
        return;
      }
      assert data[0..] == data;
      var i := 0;
      while i < |data|
        invariant 0 <= i <= |data| && Valid() && WalkOk(WalkView())
        invariant Feed(opts, View(), data[i..]) == Feed(opts, s, data) && (!done || i == |data|)
      {
        assert data[i..][0] == data[i] && data[i..][1..] == data[i + 1..];
        DoCaptureSm(data[i]);
        i := i + 1;
        if done {
          return;
        }
      }
    }

    method DoAnnounce()
      requires Valid()
      modifies `out, `captureLastTs, `captureSavedLs, `captureEnabled, `done
      ensures View() == TimeLaws.Announce(opts, old(View()))
    {
      hide CaptureInfo;
      done := false;
      if opts.trigger.Disabled? {
        DoCaptureInfo(0, StartingCapture);
        captureEnabled := true;
      } else {
        Say(WaitingForTrigger);
      }
    }
  }
}
