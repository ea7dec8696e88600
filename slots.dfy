/** The time-slot resolver: the hour of the day in Japan time decides one of
    four slots, each with a display label and a guide line. */
module Slots {
  import opened Wrappers

  /** The four slots of the day. */
  datatype Slot = DeepNight | Morning | Afternoon | Night {
    /** The name the page uses for the slot in storage keys and CSS classes. */
    function Name(): string
    {
      match this
      case DeepNight => "deepnight"
      case Morning => "morning"
      case Afternoon => "afternoon"
      case Night => "night"
    }
  }

  /** Reference table of the hour ranges: each slot starts at its lower bound
      inclusive; the night slot has no upper bound. */
  predicate HourInSlot(hh: nat, s: Slot)
  {
    match s
    case DeepNight => hh < 6
    case Morning => 6 <= hh < 12
    case Afternoon => 12 <= hh < 18
    case Night => 18 <= hh
  }

  /** The slot of an hour; total, and the only slot whose range holds the hour. */
  function SlotByHour(hh: nat): (r: Slot)
    ensures HourInSlot(hh, r)
    ensures forall s: Slot :: HourInSlot(hh, s) ==> s == r
  {
    if hh < 6 then DeepNight
    else if hh < 12 then Morning
    else if hh < 18 then Afternoon
    else Night
  }

  /** The slot used by the page: a forced slot wins without looking at the
      hour; otherwise the page's own copy of the hour table decides. */
  function TimeSlot(force: Option<Slot>, hh: nat): (r: Slot)
    ensures force.Some? ==> r == force.value
    ensures force.None? ==> r == SlotByHour(hh) && HourInSlot(hh, r)
  {
    if force.Some? then force.value
    else if hh < 6 then DeepNight
    else if hh < 12 then Morning
    else if hh < 18 then Afternoon
    else Night
  }

  /** The hours 6, 12 and 18 belong to the later slot. */
  lemma SlotBoundaries()
    ensures SlotByHour(0) == DeepNight && SlotByHour(5) == DeepNight
    ensures SlotByHour(6) == Morning && SlotByHour(11) == Morning
    ensures SlotByHour(12) == Afternoon && SlotByHour(17) == Afternoon
    ensures SlotByHour(18) == Night && SlotByHour(23) == Night
  {
  }

  /** The forced slot is returned whatever the hour is. */
  lemma ForcedSlotIgnoresHour(s: Slot, hh: nat, hh': nat)
    ensures TimeSlot(Some(s), hh) == TimeSlot(Some(s), hh') == s
  {
  }

  /** Display label of a slot name; every other name gets the night label. */
  function SlotLabel(slot: string): (r: string)
    ensures r in {"深夜", "朝", "昼", "夜"}
  {
    if slot == "deepnight" then "深夜"
    else if slot == "morning" then "朝"
    else if slot == "afternoon" then "昼"
    else "夜"
  }

  /** Guide line of a slot name; every other name gets the night guide. */
  function GuideText(slot: string): (r: string)
    ensures r in {"🌑 静かなメッセージ", "☀️ 本日の流れ", "🌤 軽いヒント", "🌙 ねぎらい／問いかけ"}
  {
    if slot == "deepnight" then "🌑 静かなメッセージ"
    else if slot == "morning" then "☀️ 本日の流れ"
    else if slot == "afternoon" then "🌤 軽いヒント"
    else "🌙 ねぎらい／問いかけ"
  }

  /** Distinct slots have distinct names, labels and guide lines. */
  lemma SlotTextsDistinct(s: Slot, t: Slot)
    requires s != t
    ensures s.Name() != t.Name()
    ensures SlotLabel(s.Name()) != SlotLabel(t.Name())
    ensures GuideText(s.Name()) != GuideText(t.Name())
  {
  }

  /** A name that is not deepnight, morning or afternoon is treated as night. */
  lemma UnknownNameIsNight(slot: string)
    requires slot != "deepnight" && slot != "morning" && slot != "afternoon"
    ensures SlotLabel(slot) == SlotLabel(Night.Name())
    ensures GuideText(slot) == GuideText(Night.Name())
  {
  }
}
