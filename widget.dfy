/** The page's click handling: the main button and the deep-night trigger,
    acting in place on the flag store and the video element's source. */
module Widget {
  import opened Wrappers
  import opened Slots
  import opened Keys
  import opened Content
  import opened Gate

  /** The values the page ships with: the daily limit switched off and the
      slot forced to deep night. */
  const ShippedLimitDisabled := true
  const ShippedForceSlot: Option<Slot> := Some(DeepNight)

  class DailyLuck {
    /** Configuration: skip the used-flag reads, and a slot that overrides the clock. */
    const limitDisabled: bool
    const forceSlot: Option<Slot>
    /** The message and video data sets. */
    const pools: Pools
    /** The browser's key-value store. */
    var store: map<string, string>
    /** The deep-night video element's source, unset until first drawn. */
    var videoSrc: Option<string>

    constructor (limitDisabled: bool, forceSlot: Option<Slot>, pools: Pools, store: map<string, string>)
      ensures this.limitDisabled == limitDisabled && this.forceSlot == forceSlot && this.pools == pools
      ensures this.store == store && videoSrc == None
    {
      this.limitDisabled := limitDisabled;
      this.forceSlot := forceSlot;
      this.pools := pools;
      this.store := store;
      videoSrc := None;
    }

    /** The deep-night trigger for the Japan-time date `y-m-d`; `pickIndex` is
        the random draw into the video pool and `playOk` whether playback
        started. */
    method DeepnightTrigger(y: string, m: string, d: string, pickIndex: nat, playOk: bool) returns (o: Outcome)
      requires pickIndex < |pools.deepnight|
      modifies this
      ensures var r := DeepnightGate(limitDisabled, old(store), old(videoSrc), DeepnightUsedKey(DateString(y, m, d)),
                                     pools.deepnight[pickIndex].videoUrl, playOk);
              o == r.outcome && store == r.store && videoSrc == r.src
      ensures UsedFlagsKept(old(store), store)
    {
      var usedKey := DeepnightUsedKey(DateString(y, m, d));
      if !limitDisabled && usedKey in store && store[usedKey] == UsedFlag {
        return NoOp;
      }
      if videoSrc.None? {
        videoSrc := Some(pools.deepnight[pickIndex].videoUrl);
      }
      if playOk && !limitDisabled {
        store := store[usedKey := UsedFlag];
      }
      o := Video(videoSrc.value, playOk);
    }

    /** The main button for the Japan-time date `y-m-d` and hour `hh`; the
        deep-night slot goes to the video trigger, every other slot through
        its day gate. */
    method Click(y: string, m: string, d: string, hh: nat, pickIndex: nat, playOk: bool) returns (o: Outcome)
      requires TimeSlot(forceSlot, hh) == DeepNight ==> pickIndex < |pools.deepnight|
      requires TimeSlot(forceSlot, hh) != DeepNight ==> pickIndex < MessagePoolSize(pools, TimeSlot(forceSlot, hh))
      modifies this
      ensures TimeSlot(forceSlot, hh) == DeepNight ==>
                var r := DeepnightGate(limitDisabled, old(store), old(videoSrc), DeepnightUsedKey(DateString(y, m, d)),
                                       pools.deepnight[pickIndex].videoUrl, playOk);
                o == r.outcome && store == r.store && videoSrc == r.src
      ensures TimeSlot(forceSlot, hh) != DeepNight ==>
                var slot := TimeSlot(forceSlot, hh);
                var r := DayGate(limitDisabled, old(store), StorageKey(DateString(y, m, d), slot.Name()),
                                 Placeholder(SlotLabel(slot.Name())), PickMessage(pools, slot, pickIndex));
                o == r.outcome && store == r.store && videoSrc == old(videoSrc)
      ensures UsedFlagsKept(old(store), store)
    {
      var slot := TimeSlot(forceSlot, hh);
      var dateStr := DateString(y, m, d);
      if slot == DeepNight {
        o := DeepnightTrigger(y, m, d, pickIndex, playOk);
        return;
      }
      var key := StorageKey(dateStr, slot.Name());
      if !limitDisabled && key in store && store[key] == UsedFlag {
        o := AlreadyUsed(Placeholder(SlotLabel(slot.Name())));
        return;
      }
      o := Fresh(PickMessage(pools, slot, pickIndex));
      store := store[key := UsedFlag];
    }
  }

  /** With the shipped configuration every click is a deep-night trigger,
      whatever the hour. */
  lemma ShippedConfigAlwaysDeepnight(hh: nat)
    ensures TimeSlot(ShippedForceSlot, hh) == DeepNight
  {
  }

  /** With the daily limit disabled as shipped, the deep-night trigger is
      never blocked and never writes its flag. */
  lemma ShippedLimitNeverBlocks(store: map<string, string>, src: Option<string>, key: string,
                                drawn: string, playOk: bool)
    ensures var r := DeepnightGate(ShippedLimitDisabled, store, src, key, drawn, playOk);
            r.outcome.Video? && r.store == store
  {
  }

  /** A morning, hour 9, limit on: the first click of the day shows a fortune
      from the pool, the second the morning placeholder. */
  method MorningScenario(pools: Pools, fortune: nat, store: map<string, string>) returns (first: Outcome, second: Outcome)
    requires fortune < |pools.morning|
    requires !IsUsed(store, StorageKey("2026-10-16", "morning"))
    ensures first.Fresh? && exists k :: 0 <= k < |pools.morning| && first.html == FormatFortune(pools.morning[k])
    ensures second == AlreadyUsed("今回朝のヒント。<br>また次回😊")
  {
    var page := new DailyLuck(false, None, pools, store);
    assert DateString("2026", "10", "16") == "2026-10-16";
    first := page.Click("2026", "10", "16", 9, fortune, true);
    second := page.Click("2026", "10", "16", 9, fortune, true);
  }

  /** Night hours, limit on: the first trigger with playback opens a video from
      the pool; the second trigger the same day does nothing. */
  method DeepnightScenario(pools: Pools, pick: nat, store: map<string, string>) returns (first: Outcome, second: Outcome)
    requires pick < |pools.deepnight|
    requires !IsUsed(store, DeepnightUsedKey("2026-10-16"))
    ensures first == Video(pools.deepnight[pick].videoUrl, true)
    ensures second == NoOp
  {
    var page := new DailyLuck(false, None, pools, store);
    assert DateString("2026", "10", "16") == "2026-10-16";
    first := page.Click("2026", "10", "16", 2, pick, true);
    second := page.Click("2026", "10", "16", 2, pick, true);
  }
}
