/**
 * The cache key under which the OAuth2 token of a command set is stored:
 * the snake-cased short class name followed by ":jwt", computed once and
 * then memoised in a static slot.
 */
module CacheKey {
  import opened Wrappers

  predicate IsUpper(c: char)
  {
    'A' <= c <= 'Z'
  }

  function Lower(c: char): char
  {
    if IsUpper(c) then (c as int - 'A' as int + 'a' as int) as char else c
  }

  /**
   * `Str::snake` of a class short name: an underscore before every upper-case
   * letter that follows another character, then everything lower-cased.
   */
  function Snake(name: string): (r: string)
    ensures NoUpper(r)
    ensures |r| >= |name|
    ensures name != [] ==> r[0] == Lower(name[0])
  {
    if name == [] then []
    else
      SnakeTailHasNoUpper(name[1..]);
      [Lower(name[0])] + SnakeTail(name[1..])
  }

  /** The part of `Snake` after the first character, where each capital starts a new word. */
  function SnakeTail(s: string): (r: string)
    ensures |r| >= |s|
    decreases |s|
  {
    if s == [] then []
    else (if IsUpper(s[0]) then ['_', Lower(s[0])] else [s[0]]) + SnakeTail(s[1..])
  }

  predicate NoUpper(s: string)
  {
    forall i :: 0 <= i < |s| ==> !IsUpper(s[i])
  }

  const Suffix: string := ":jwt"

  /** The key of the command set whose short class name is `name`. */
  function KeyFor(name: string): string
  {
    Snake(name) + Suffix
  }

  lemma {:induction false} SnakeTailHasNoUpper(s: string)
    ensures NoUpper(SnakeTail(s))
    decreases |s|
  {
    if s != [] {
      SnakeTailHasNoUpper(s[1..]);
    }
  }

  lemma {:induction false} SnakeTailKeepsLower(s: string)
    requires NoUpper(s)
    ensures SnakeTail(s) == s
    decreases |s|
  {
    if s != [] {
      SnakeTailKeepsLower(s[1..]);
      assert s == [s[0]] + s[1..];
    }
  }

  /** A snake-cased name has no capital, and snake-casing it again changes nothing. */
  lemma SnakeIsIdempotent(name: string)
    ensures NoUpper(Snake(name))
    ensures Snake(Snake(name)) == Snake(name)
  {
    if name != [] {
      SnakeTailHasNoUpper(name[1..]);
      var s := Snake(name);
      assert s[1..] == SnakeTail(name[1..]);
      SnakeTailKeepsLower(s[1..]);
      assert s == [s[0]] + s[1..];
    }
  }

  /** The key ends with ":jwt", is lower-case, and what precedes the suffix is the snake-cased name. */
  lemma KeyForShape(name: string)
    ensures var key := KeyFor(name);
      |key| >= |Suffix| && key[|key| - |Suffix|..] == Suffix && key[..|key| - |Suffix|] == Snake(name) && NoUpper(key)
  {
    SnakeIsIdempotent(name);
    var key := KeyFor(name);
    assert key[|key| - |Suffix|..] == Suffix;
    assert key[..|key| - |Suffix|] == Snake(name);
    assert NoUpper(Suffix);
  }

  /** Two command sets get the same key exactly when their names snake-case alike. */
  lemma KeyForSeparatesNames(a: string, b: string)
    ensures KeyFor(a) == KeyFor(b) <==> Snake(a) == Snake(b)
  {
    if KeyFor(a) == KeyFor(b) {
      KeyForShape(a);
      KeyForShape(b);
    }
  }

  // ---------------------------------------------------------------------------
  // The memo. `getCacheKey` tests the static slot and fills it on first use.

  /**
   * The memo as written: the static property belongs to the class that uses
   * the trait, and every command set inherits that one slot, so whichever
   * command set asks first fixes the key for all of them.
   */
  function SharedSlotKey(slot: Option<string>, name: string): (r: (string, Option<string>))
    ensures r.1 == Some(r.0)
    ensures slot.Some? ==> r == (slot.value, slot)
    ensures slot.None? ==> r.0 == KeyFor(name)
  {
    if slot.None? then (KeyFor(name), Some(KeyFor(name))) else (slot.value, slot)
  }

  /** The memo as intended: one slot per command set, keyed by its class name. */
  function ClassSlotKey(slots: map<string, string>, name: string): (string, map<string, string>)
  {
    if name in slots then (slots[name], slots) else (KeyFor(name), slots[name := KeyFor(name)])
  }

  /** Every filled slot holds the key of its own command set. */
  ghost predicate Memoised(slots: map<string, string>)
  {
    forall n :: n in slots ==> slots[n] == KeyFor(n)
  }

  /**
   * With one slot per class the memo always answers the class's own key, keeps
   * every slot correct, and asking again changes nothing.
   */
  lemma ClassSlotKeyIsKeyFor(slots: map<string, string>, name: string)
    requires Memoised(slots)
    ensures var (key, slots') := ClassSlotKey(slots, name);
      key == KeyFor(name) && Memoised(slots') && slots' == slots[name := key]
      && ClassSlotKey(slots', name) == (key, slots')
  {
  }

  /**
   * The shared slot leaks: once "Weather" has asked, "Billing" is handed
   * Weather's key instead of its own.
   */
  lemma SharedSlotLeaks()
    ensures var (first, slot) := SharedSlotKey(None, "Weather");
      SharedSlotKey(slot, "Billing").0 == first && first != KeyFor("Billing")
  {
    assert Snake("Weather")[0] == Lower('W') == 'w';
    assert Snake("Billing")[0] == Lower('B') == 'b';
    assert KeyFor("Weather")[0] == 'w' && KeyFor("Billing")[0] == 'b';
  }

  // ---------------------------------------------------------------------------
  // Successive lookups by a sequence of command sets in one process.

  /** The keys the shared slot hands out, lookup after lookup. */
  function SharedAsks(slot: Option<string>, names: seq<string>): (keys: seq<string>)
    decreases |names|
  {
    if names == [] then []
    else
      var (key, slot') := SharedSlotKey(slot, names[0]);
      [key] + SharedAsks(slot', names[1..])
  }

  /** The keys the per-class slots hand out, lookup after lookup. */
  function ClassAsks(slots: map<string, string>, names: seq<string>): (keys: seq<string>)
    decreases |names|
  {
    if names == [] then []
    else
      var (key, slots') := ClassSlotKey(slots, names[0]);
      [key] + ClassAsks(slots', names[1..])
  }

  lemma {:induction false} SharedAsksRepeat(key: string, names: seq<string>)
    ensures |SharedAsks(Some(key), names)| == |names|
    ensures forall i :: 0 <= i < |names| ==> SharedAsks(Some(key), names)[i] == key
    decreases |names|
  {
    if names != [] {
      SharedAsksRepeat(key, names[1..]);
    }
  }

  /** As written: in a fresh process every lookup, whatever the command set, answers the first one's key. */
  lemma SharedAsksRepeatFirst(names: seq<string>)
    requires names != []
    ensures |SharedAsks(None, names)| == |names|
    ensures forall i :: 0 <= i < |names| ==> SharedAsks(None, names)[i] == KeyFor(names[0])
  {
    SharedAsksRepeat(KeyFor(names[0]), names[1..]);
  }

  /** As intended: every lookup answers the asking command set's own key, whatever asked before. */
  lemma {:induction false} ClassAsksAreOwnKeys(slots: map<string, string>, names: seq<string>)
    requires Memoised(slots)
    ensures |ClassAsks(slots, names)| == |names|
    ensures forall i :: 0 <= i < |names| ==> ClassAsks(slots, names)[i] == KeyFor(names[i])
    decreases |names|
  {
    if names != [] {
      ClassSlotKeyIsKeyFor(slots, names[0]);
      ClassAsksAreOwnKeys(ClassSlotKey(slots, names[0]).1, names[1..]);
    }
  }
}
