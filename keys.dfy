/** Storage keys of the daily-use gate: a date string built from the Japan
    time calendar parts, a key per (date, slot) for the day slots and a key
    per date for the deep-night video. */
module Keys {
  import opened Text
  import opened Slots

  predicate IsDigit(c: char)
  {
    '0' <= c <= '9'
  }

  /** A non-empty run of decimal digits, as the calendar formatter gives for
      the year, month and day. */
  predicate IsDigits(s: string)
  {
    |s| > 0 && forall i :: 0 <= i < |s| ==> IsDigit(s[i])
  }

  /** The date as `y-m-d`; from digit parts it starts with a digit and holds
      no colon, so it can sit between the colons of a key. */
  function DateString(y: string, m: string, d: string): (r: string)
    ensures |r| == |y| + |m| + |d| + 2
    ensures IsDigits(y) && IsDigits(m) && IsDigits(d) ==> IsDigit(r[0]) && ':' !in r
  {
    var r := y + "-" + m + "-" + d;
    assert forall i :: 0 <= i < |r| ==> r[i] == '-' || (IsDigits(y) && IsDigits(m) && IsDigits(d) ==> IsDigit(r[i]));
    r
  }

  /** Key of a day slot's flag. */
  function StorageKey(dateStr: string, slot: string): (r: string)
    ensures |r| == |dateStr| + |slot| + 6 && r[..5] == "used:"
    ensures |dateStr| > 0 ==> r[5] == dateStr[0]
  {
    "used:" + dateStr + ":" + slot
  }

  /** Key of the deep-night video's flag. */
  function DeepnightUsedKey(dateStr: string): (r: string)
    ensures |r| == |dateStr| + 15 && r[..5] == "used:" && r[5] == 'd'
  {
    "used:deepnight:" + dateStr
  }

  /** The date string determines its year, month and day. */
  lemma {:induction false} DateStringInjective(y: string, m: string, d: string, y': string, m': string, d': string)
    requires IsDigits(y) && IsDigits(m) && IsDigits(d)
    requires IsDigits(y') && IsDigits(m') && IsDigits(d')
    requires DateString(y, m, d) == DateString(y', m', d')
    ensures y == y' && m == m' && d == d'
  {
    assert '-' !in y && '-' !in y' && '-' !in m && '-' !in m' by {
      assert !IsDigit('-');
    }
    assert DateString(y, m, d) == y + ['-'] + (m + ['-'] + d);
    assert DateString(y', m', d') == y' + ['-'] + (m' + ['-'] + d');
    SplitAtSeparator('-', y, m + ['-'] + d, y', m' + ['-'] + d');
    SplitAtSeparator('-', m, d, m', d');
  }

  /** A day key determines its date and slot name when dates hold no colon. */
  lemma {:induction false} StorageKeyInjective(dateStr: string, slot: string, dateStr': string, slot': string)
    requires ':' !in dateStr && ':' !in dateStr'
    requires StorageKey(dateStr, slot) == StorageKey(dateStr', slot')
    ensures dateStr == dateStr' && slot == slot'
  {
    assert StorageKey(dateStr, slot) == "used:" + (dateStr + [':'] + slot);
    assert StorageKey(dateStr', slot') == "used:" + (dateStr' + [':'] + slot');
    CancelPrefix("used:", dateStr + [':'] + slot, dateStr' + [':'] + slot');
    SplitAtSeparator(':', dateStr, slot, dateStr', slot');
  }

  /** Distinct (date, slot) pairs have distinct day keys. */
  lemma {:induction false} DayKeysDistinct(y: string, m: string, d: string, s: Slot, y': string, m': string, d': string, s': Slot)
    requires IsDigits(y) && IsDigits(m) && IsDigits(d)
    requires IsDigits(y') && IsDigits(m') && IsDigits(d')
    requires (y, m, d, s) != (y', m', d', s')
    ensures StorageKey(DateString(y, m, d), s.Name()) != StorageKey(DateString(y', m', d'), s'.Name())
  {
    if StorageKey(DateString(y, m, d), s.Name()) == StorageKey(DateString(y', m', d'), s'.Name()) {
      StorageKeyInjective(DateString(y, m, d), s.Name(), DateString(y', m', d'), s'.Name());
      DateStringInjective(y, m, d, y', m', d');
      if s != s' {
        SlotTextsDistinct(s, s');
      }
    }
  }

  /** Distinct dates have distinct deep-night keys. */
  lemma {:induction false} DeepnightKeysDistinct(y: string, m: string, d: string, y': string, m': string, d': string)
    requires IsDigits(y) && IsDigits(m) && IsDigits(d)
    requires IsDigits(y') && IsDigits(m') && IsDigits(d')
    requires (y, m, d) != (y', m', d')
    ensures DeepnightUsedKey(DateString(y, m, d)) != DeepnightUsedKey(DateString(y', m', d'))
  {
    if DeepnightUsedKey(DateString(y, m, d)) == DeepnightUsedKey(DateString(y', m', d')) {
      CancelPrefix("used:deepnight:", DateString(y, m, d), DateString(y', m', d'));
      DateStringInjective(y, m, d, y', m', d');
    }
  }

  /** A deep-night key is never the key of a day slot, whatever the slot
      name: after `used:` the one has a letter, the other a digit. */
  lemma {:induction false} DeepnightKeyNotDayKey(y: string, m: string, d: string, y': string, m': string, d': string, slot: string)
    requires IsDigits(y) && IsDigits(m) && IsDigits(d)
    requires IsDigits(y') && IsDigits(m') && IsDigits(d')
    ensures DeepnightUsedKey(DateString(y, m, d)) != StorageKey(DateString(y', m', d'), slot)
  {
    var k := DeepnightUsedKey(DateString(y, m, d));
    var k' := StorageKey(DateString(y', m', d'), slot);
    assert k[5] == 'd' && IsDigit(k'[5]);
  }
}
