/** The once-per-day gate over the page's flag store: what a click on a day
    slot and a deep-night trigger do, as functions of the store before. */
module Gate {
  import opened Wrappers

  /** The value written under a key to mark it used. */
  const UsedFlag := "1"

  /** A key counts as used only when it holds exactly the flag value; a
      missing key or any other value does not. */
  predicate IsUsed(store: map<string, string>, key: string)
  {
    key in store && store[key] == UsedFlag
  }

  /** The store with the key marked used and every other key as it was. */
  function MarkUsed(store: map<string, string>, key: string): (r: map<string, string>)
    ensures IsUsed(r, key)
    ensures r.Keys == store.Keys + {key}
    ensures forall k :: k in store && k != key ==> r[k] == store[k]
  {
    store[key := UsedFlag]
  }

  /** Marking a key twice is the same as marking it once. */
  lemma MarkUsedIdempotent(store: map<string, string>, key: string)
    ensures MarkUsed(MarkUsed(store, key), key) == MarkUsed(store, key)
  {
  }

  /** What the page does in response to a trigger. */
  datatype Outcome =
    | Fresh(html: string)               // a drawn message is shown
    | AlreadyUsed(html: string)         // the placeholder is shown
    | NoOp                              // nothing happens
    | Video(src: string, played: bool)  // the video area opens on src; played tells whether playback started

  /** Every key used in the first store is still used in the second. */
  ghost predicate UsedFlagsKept(before: map<string, string>, after: map<string, string>)
  {
    forall k :: IsUsed(before, k) ==> IsUsed(after, k)
  }

  /** Store and outcome after a day-slot click. */
  datatype DayStep = DayStep(outcome: Outcome, store: map<string, string>)

  /** Only the given key may differ between the two stores. */
  ghost predicate OnlyKeyChanged(before: map<string, string>, after: map<string, string>, key: string)
  {
    forall k :: k != key ==> (k in after <==> k in before) && (k in before ==> after[k] == before[k])
  }

  /** A click on a day slot: with the limit on and the key used, the
      placeholder and no change; otherwise the drawn message, and the key is
      written even when the limit is off. */
  function DayGate(limitDisabled: bool, store: map<string, string>, key: string,
                   placeholder: string, message: string): (r: DayStep)
    ensures r.outcome.Fresh? <==> limitDisabled || !IsUsed(store, key)
    ensures r.outcome.Fresh? ==> r.outcome.html == message && r.store == MarkUsed(store, key)
    ensures !r.outcome.Fresh? ==> r.outcome == AlreadyUsed(placeholder) && r.store == store
    ensures IsUsed(r.store, key)
    ensures OnlyKeyChanged(store, r.store, key)
  {
    if !limitDisabled && IsUsed(store, key) then DayStep(AlreadyUsed(placeholder), store)
    else DayStep(Fresh(message), MarkUsed(store, key))
  }

  /** With the limit on, a second click on the same key after any first click
      shows the placeholder and leaves the store as the first click left it. */
  lemma SecondDayClickIsPlaceholder(store: map<string, string>, key: string,
                                    placeholder: string, message: string, message': string)
    ensures var first := DayGate(false, store, key, placeholder, message);
            DayGate(false, first.store, key, placeholder, message') == DayStep(AlreadyUsed(placeholder), first.store)
  {
  }

  /** A click on one key does not disturb the gate of any other key. */
  lemma DayGateIndependent(limitDisabled: bool, store: map<string, string>, key: string, other: string,
                           placeholder: string, message: string)
    requires other != key
    ensures IsUsed(DayGate(limitDisabled, store, key, placeholder, message).store, other) <==> IsUsed(store, other)
  {
  }

  /** Store, outcome and video source after a deep-night trigger. */
  datatype NightStep = NightStep(outcome: Outcome, store: map<string, string>, src: Option<string>)

  /** A deep-night trigger: with the limit on and the key used, nothing
      happens; otherwise the video opens, on the source already set or on the
      drawn one, and the key is written only when playback started and the
      limit is on. */
  function DeepnightGate(limitDisabled: bool, store: map<string, string>, src: Option<string>, key: string,
                         drawn: string, playOk: bool): (r: NightStep)
    ensures r.outcome == NoOp <==> !limitDisabled && IsUsed(store, key)
    ensures r.outcome == NoOp ==> r.store == store && r.src == src
    ensures r.outcome != NoOp ==> r.src.Some? && r.outcome == Video(r.src.value, playOk)
    ensures src.Some? ==> r.src == src
    ensures src.None? && r.outcome != NoOp ==> r.src == Some(drawn)
    ensures IsUsed(r.store, key) <==> IsUsed(store, key) || (playOk && !limitDisabled)
    ensures !playOk || limitDisabled ==> r.store == store
    ensures OnlyKeyChanged(store, r.store, key)
  {
    if !limitDisabled && IsUsed(store, key) then NightStep(NoOp, store, src)
    else
      var src' := if src.Some? then src else Some(drawn);
      var store' := if playOk && !limitDisabled then MarkUsed(store, key) else store;
      NightStep(Video(src'.value, playOk), store', src')
  }

  /** With the limit on, after a trigger whose playback started, a second
      trigger the same day does nothing. */
  lemma SecondNightTriggerIsNoOp(store: map<string, string>, src: Option<string>, key: string,
                                 drawn: string, drawn': string, playOk': bool)
    ensures var first := DeepnightGate(false, store, src, key, drawn, true);
            DeepnightGate(false, first.store, first.src, key, drawn', playOk') == NightStep(NoOp, first.store, first.src)
  {
  }

  /** A failed playback on an unused day does not use the day up: the next
      trigger opens the video again, on the same source. */
  lemma FailedPlaybackCanRetry(limitDisabled: bool, store: map<string, string>, src: Option<string>, key: string,
                               drawn: string, drawn': string, playOk': bool)
    requires !IsUsed(store, key)
    ensures var first := DeepnightGate(limitDisabled, store, src, key, drawn, false);
            var second := DeepnightGate(limitDisabled, first.store, first.src, key, drawn', playOk');
            second.outcome == Video(first.src.value, playOk')
  {
  }

  /** Once a source is set it stays for every later trigger. */
  lemma VideoSourceStaysFixed(limitDisabled: bool, store: map<string, string>, src: Option<string>, key: string,
                              drawn: string, playOk: bool, store': map<string, string>, key': string,
                              drawn': string, playOk': bool)
    ensures var first := DeepnightGate(limitDisabled, store, src, key, drawn, playOk);
            first.src.Some? ==> DeepnightGate(limitDisabled, store', first.src, key', drawn', playOk').src == first.src
  {
  }

  /** A used flag is never cleared: every key used before a day click or a
      deep-night trigger is still used after it. */
  lemma UsedFlagsPersist(limitDisabled: bool, store: map<string, string>, src: Option<string>,
                         key: string, placeholder: string, message: string,
                         drawn: string, playOk: bool, k: string)
    requires IsUsed(store, k)
    ensures IsUsed(DayGate(limitDisabled, store, key, placeholder, message).store, k)
    ensures IsUsed(DeepnightGate(limitDisabled, store, src, key, drawn, playOk).store, k)
  {
  }
}
