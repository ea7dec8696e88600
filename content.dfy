/** What the page shows: a message drawn from the slot's pool, or the
    placeholder once the slot has been used today. */
module Content {
  import opened Text
  import opened Slots

  /** A morning fortune: a heading and its message. */
  datatype Fortune = Fortune(name: string, message: string)

  /** A deep-night video record. */
  datatype DeepnightVideo = DeepnightVideo(videoUrl: string)

  /** The four read-only data sets the page is given. */
  datatype Pools = Pools(
    morning: seq<Fortune>,
    afternoon: seq<string>,
    night: seq<string>,
    deepnight: seq<DeepnightVideo>)

  /** A morning fortune as markup: the name in bold, a line break, the message. */
  function FormatFortune(f: Fortune): (r: string)
    ensures |r| == |f.name| + |f.message| + 21
  {
    "<strong>" + f.name + "</strong><br>" + f.message
  }

  /** The formatted markup gives back the fortune when its name holds no `<`. */
  lemma {:induction false} FormatFortuneInjective(f: Fortune, g: Fortune)
    requires '<' !in f.name && '<' !in g.name
    requires FormatFortune(f) == FormatFortune(g)
    ensures f == g
  {
    assert FormatFortune(f) == "<strong>" + (f.name + ['<'] + ("/strong><br>" + f.message));
    assert FormatFortune(g) == "<strong>" + (g.name + ['<'] + ("/strong><br>" + g.message));
    CancelPrefix("<strong>", f.name + ['<'] + ("/strong><br>" + f.message), g.name + ['<'] + ("/strong><br>" + g.message));
    SplitAtSeparator('<', f.name, "/strong><br>" + f.message, g.name, "/strong><br>" + g.message);
    CancelPrefix("/strong><br>", f.message, g.message);
  }

  /** Size of the pool a message for the slot is drawn from; any slot other
      than morning and afternoon draws from the night pool. */
  function MessagePoolSize(p: Pools, slot: Slot): nat
  {
    match slot
    case Morning => |p.morning|
    case Afternoon => |p.afternoon|
    case _ => |p.night|
  }

  /** The message shown for a slot, given the drawn index into its pool. */
  function PickMessage(p: Pools, slot: Slot, i: nat): (r: string)
    requires i < MessagePoolSize(p, slot)
    ensures slot == Morning ==> exists k :: 0 <= k < |p.morning| && r == FormatFortune(p.morning[k])
    ensures slot == Afternoon ==> r in p.afternoon
    ensures slot != Morning && slot != Afternoon ==> r in p.night
  {
    match slot
    case Morning => FormatFortune(p.morning[i])
    case Afternoon => p.afternoon[i]
    case _ => p.night[i]
  }

  /** Every entry of the slot's pool can be drawn: some index in range
      yields it (for the morning pool, its markup). */
  lemma {:induction false} PickMessageCoversPool(p: Pools, slot: Slot, e: string)
    requires slot == Morning ==> exists f :: f in p.morning && e == FormatFortune(f)
    requires slot == Afternoon ==> e in p.afternoon
    requires slot != Morning && slot != Afternoon ==> e in p.night
    ensures exists i: nat :: i < MessagePoolSize(p, slot) && PickMessage(p, slot, i) == e
  {
    match slot
    case Morning =>
      var f :| f in p.morning && e == FormatFortune(f);
      var i :| 0 <= i < |p.morning| && p.morning[i] == f;
      assert PickMessage(p, slot, i) == e;
    case Afternoon =>
      var i :| 0 <= i < |p.afternoon| && p.afternoon[i] == e;
      assert PickMessage(p, slot, i) == e;
    case _ =>
      var i :| 0 <= i < |p.night| && p.night[i] == e;
      assert PickMessage(p, slot, i) == e;
  }

  /** Shown instead of a message once the slot has been used today. */
  function Placeholder(caption: string): (r: string)
    ensures |r| == |caption| + 16
  {
    "今回" + caption + "のヒント。<br>また次回😊"
  }

  /** The placeholder names its slot: distinct slots get distinct placeholders. */
  lemma {:induction false} PlaceholdersDistinct(s: Slot, t: Slot)
    requires s != t
    ensures Placeholder(SlotLabel(s.Name())) != Placeholder(SlotLabel(t.Name()))
  {
    if Placeholder(SlotLabel(s.Name())) == Placeholder(SlotLabel(t.Name())) {
      CancelFrame("今回", SlotLabel(s.Name()), SlotLabel(t.Name()), "のヒント。<br>また次回😊");
      SlotTextsDistinct(s, t);
    }
  }
}
