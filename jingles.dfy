/**
 * The jingle palette (jingle_palette.py): named presets, each a JSON object from
 * pad id to sound file, kept in a presets directory; a pool of sound files; a
 * fixed 5 x 6 pad grid (A1 .. E6) that is edited and saved; and the pads the
 * player shows.
 */
module Jingles {
  import opened Wrappers
  import opened JsonDoc
  import opened Paths
  import opened Sorting

  // ---------------------------------------------------------------------------
  // Preset names (jingle_palette.py:44-48)

  /**
   * `str.isalnum()` for the characters up to U+00FF: ASCII letters and digits, and
   * the Latin-1 letters, superscript digits and vulgar fractions.
   */
  predicate IsAlnum(c: char) {
    || ('a' <= c <= 'z') || ('A' <= c <= 'Z') || ('0' <= c <= '9')
    || c == '\U{00AA}' || c == '\U{00B2}' || c == '\U{00B3}' || c == '\U{00B5}'
    || c == '\U{00B9}' || c == '\U{00BA}' || ('\U{00BC}' <= c <= '\U{00BE}')
    || ('\U{00C0}' <= c <= '\U{00FF}' && c != '\U{00D7}' && c != '\U{00F7}')
  }

  predicate SafeChar(c: char) {
    IsAlnum(c) || c == ' ' || c == '-' || c == '_'
  }

  /** A name the sanitiser leaves as it is. */
  predicate IsSafeName(s: string) {
    && |s| > 0
    && (forall k :: 0 <= k < |s| ==> SafeChar(s[k]))
    && s[0] != ' ' && s[|s| - 1] != ' '
  }

  /** The comprehension `[c for c in name if c.isalnum() or c in (' ', '-', '_')]`. */
  function KeepSafe(s: string): (r: string)
    ensures |r| <= |s|
    ensures forall k :: 0 <= k < |r| ==> SafeChar(r[k])
    ensures forall c :: c in r <==> c in s && SafeChar(c)
    ensures (forall k :: 0 <= k < |s| ==> SafeChar(s[k])) ==> r == s
    decreases |s|
  {
    if s == [] then []
    else (if SafeChar(s[0]) then [s[0]] else []) + KeepSafe(s[1..])
  }

  /**
   * `KeepSafe` is the filter it is meant to be: a one-character name keeps its
   * character exactly when it is safe, and a name split in two is filtered piece
   * by piece, so every safe character is kept, in order.
   */
  lemma {:induction false} KeepSafeFilters(a: string, b: string, c: char)
    ensures KeepSafe([c]) == if SafeChar(c) then [c] else []
    ensures KeepSafe(a + b) == KeepSafe(a) + KeepSafe(b)
    decreases |a|
  {
    assert [c][1..] == [];
    if a == [] {
      assert a + b == b;
    } else {
      assert (a + b)[0] == a[0] && (a + b)[1..] == a[1..] + b;
      KeepSafeFilters(a[1..], b, c);
    }
  }

  function TrimStart(s: string): (r: string)
    ensures |r| <= |s| && r == s[|s| - |r|..]
    ensures forall k :: 0 <= k < |s| - |r| ==> s[k] == ' '
    ensures r != [] ==> r[0] != ' '
    ensures s == [] || s[0] != ' ' ==> r == s
    decreases |s|
  {
    if s != [] && s[0] == ' ' then TrimStart(s[1..]) else s
  }

  function TrimEnd(s: string): (r: string)
    ensures |r| <= |s| && r == s[..|r|]
    ensures forall k :: |r| <= k < |s| ==> s[k] == ' '
    ensures r != [] ==> r[|r| - 1] != ' '
    ensures s == [] || s[|s| - 1] != ' ' ==> r == s
    decreases |s|
  {
    if s != [] && s[|s| - 1] == ' ' then TrimEnd(s[..|s| - 1]) else s
  }

  /** `str.strip()` on text whose only whitespace can be ' '. */
  function Strip(s: string): (r: string)
    ensures r != [] ==> r[0] != ' ' && r[|r| - 1] != ' '
    ensures (forall k :: 0 <= k < |s| ==> SafeChar(s[k])) ==> forall k :: 0 <= k < |r| ==> SafeChar(r[k])
    ensures s == [] || (s[0] != ' ' && s[|s| - 1] != ' ') ==> r == s
  {
    TrimEnd(TrimStart(s))
  }

  /**
   * Stripping cuts off the leading and the trailing spaces and nothing more: what
   * is left is a slice of the text with only spaces around it.
   */
  lemma StripCutsSpaces(s: string)
    ensures var i := |s| - |TrimStart(s)|;
      var j := i + |Strip(s)|;
      && 0 <= i <= j <= |s| && Strip(s) == s[i..j]
      && (forall k :: 0 <= k < i ==> s[k] == ' ')
      && (forall k :: j <= k < |s| ==> s[k] == ' ')
  {
    var t := TrimStart(s);
    var r := TrimEnd(t);
    var i := |s| - |t|;
    assert t == s[i..];
    assert r == t[..|r|];
    assert s[i..][..|r|] == s[i..i + |r|];
    forall k | i + |r| <= k < |s|
      ensures s[k] == ' '
    {
      assert s[k] == t[k - i];
    }
  }

  /** Stripping leaves nothing exactly when the text is all spaces. */
  lemma StripEmptyIffBlank(s: string)
    ensures Strip(s) == [] <==> forall k :: 0 <= k < |s| ==> s[k] == ' '
  {
    StripCutsSpaces(s);
    var i := |s| - |TrimStart(s)|;
    if Strip(s) == [] {
      forall k | 0 <= k < |s|
        ensures s[k] == ' '
      {
        if k >= i {
          assert i + |Strip(s)| <= k;
        }
      }
    } else {
      assert Strip(s)[0] == s[i];
    }
  }

  const Unnamed := "Unnamed"

  /**
   * The file stem `save_preset` writes under: the safe characters of the name with
   * the surrounding spaces stripped, or "Unnamed" when no safe character but a
   * space is left.
   */
  function SafeName(name: string): (r: string)
    ensures (forall k :: 0 <= k < |name| && SafeChar(name[k]) ==> name[k] == ' ') ==> r == Unnamed
    ensures (exists k :: 0 <= k < |name| && SafeChar(name[k]) && name[k] != ' ') ==> r == Strip(KeepSafe(name))
  {
    var kept := Strip(KeepSafe(name));
    StripEmptyIffBlank(KeepSafe(name));
    assert kept == "" <==> forall k :: 0 <= k < |name| && SafeChar(name[k]) ==> name[k] == ' ' by {
      var safe := KeepSafe(name);
      assert (forall k :: 0 <= k < |safe| ==> safe[k] == ' ') <==> (forall c :: c in safe ==> c == ' ');
      assert (forall c :: c in name && SafeChar(c) ==> c == ' ') <==>
             (forall k :: 0 <= k < |name| && SafeChar(name[k]) ==> name[k] == ' ');
    }
    if kept == "" then Unnamed else kept
  }

  /** Whatever the name given, the file is saved under a safe one. */
  lemma {:induction false} SafeNameIsSafe(name: string)
    ensures IsSafeName(SafeName(name))
    ensures '.' !in SafeName(name) && '/' !in SafeName(name)
  {
    var stripped := Strip(KeepSafe(name));
    if stripped == "" {
      assert forall k :: 0 <= k < |Unnamed| ==> SafeChar(Unnamed[k]);
      assert IsSafeName(Unnamed);
    } else {
      assert IsSafeName(stripped);
    }
    SafeNameHasNoSeparator(SafeName(name));
  }

  /** A safe name has neither an extension dot nor a path separator. */
  lemma SafeNameHasNoSeparator(s: string)
    requires IsSafeName(s)
    ensures '.' !in s && '/' !in s
  {
    forall k | 0 <= k < |s|
      ensures s[k] != '.' && s[k] != '/'
    {
      assert SafeChar(s[k]);
    }
  }

  /** A name that is already safe is kept exactly; so sanitising twice changes nothing more. */
  lemma {:induction false} SafeNameKeepsSafeNames(name: string)
    ensures IsSafeName(name) ==> SafeName(name) == name
    ensures SafeName(SafeName(name)) == SafeName(name)
  {
    if IsSafeName(name) {
      assert KeepSafe(name) == name;
      assert TrimStart(name) == name;
      assert TrimEnd(name) == name;
    }
    SafeNameIsSafe(name);
    var s := SafeName(name);
    assert KeepSafe(s) == s;
    assert TrimStart(s) == s;
    assert TrimEnd(s) == s;
  }

  /** The default preset's name survives the sanitiser unchanged. */
  lemma DefaultNameIsSafe()
    ensures SafeName(DefaultPreset) == DefaultPreset
  {
    assert IsSafeName(DefaultPreset) by {
      assert forall k :: 0 <= k < |DefaultPreset| ==> SafeChar(DefaultPreset[k]);
    }
    SafeNameKeepsSafeNames(DefaultPreset);
  }

  // ---------------------------------------------------------------------------
  // Listing presets (jingle_palette.py:26-34)

  const DefaultPreset := "D\U{00E9}faut"

  function PresetFile(name: string): string { name + ".json" }

  /** ".json" occurs in `f` at index `k`. */
  predicate JsonAt(f: string, k: int) {
    0 <= k && k + 5 <= |f| && f[k..k + 5] == ".json"
  }

  /**
   * `f.replace(".json", "")`: every occurrence removed, scanning left to right. A
   * name is kept whole exactly when ".json" does not occur in it; otherwise at
   * least one occurrence is cut out.
   */
  function Stem(f: string): (r: string)
    ensures |r| <= |f|
    ensures (forall k :: !JsonAt(f, k)) ==> r == f
    ensures (exists k :: JsonAt(f, k)) ==> |r| <= |f| - 5
    decreases |f|
  {
    if |f| < 5 then f
    else if f[..5] == ".json" then
      assert JsonAt(f, 0);
      Stem(f[5..])
    else
      JsonAtTail(f);
      [f[0]] + Stem(f[1..])
  }

  /** An occurrence of ".json" past the first character is one in the tail. */
  lemma JsonAtTail(f: string)
    requires |f| >= 5 && f[..5] != ".json"
    ensures (forall k :: !JsonAt(f, k)) ==> forall k :: !JsonAt(f[1..], k)
    ensures (exists k :: JsonAt(f, k)) ==> exists k :: JsonAt(f[1..], k)
  {
    forall k | JsonAt(f[1..], k)
      ensures JsonAt(f, k + 1)
    {
      assert f[1..][k..k + 5] == f[k + 1..k + 6];
    }
    if exists k :: JsonAt(f, k) {
      var k :| JsonAt(f, k);
      assert k != 0;
      assert f[1..][k - 1..k + 4] == f[k..k + 5];
      assert JsonAt(f[1..], k - 1);
    }
  }

  /** A name without a dot gets its own name back from its preset file. */
  lemma {:induction false} StemOfPresetFile(name: string)
    requires '.' !in name
    ensures Stem(PresetFile(name)) == name
    decreases |name|
  {
    var f := PresetFile(name);
    if name == [] {
      assert f[..5] == ".json" && f[5..] == [];
    } else {
      assert f[..5] != ".json" by { assert f[0] == name[0] != '.'; }
      assert f[1..] == PresetFile(name[1..]);
      StemOfPresetFile(name[1..]);
      assert name == [name[0]] + name[1..];
    }
  }

  /**
   * A preset file whose only ".json" is its suffix gets its name back, dots and
   * all: the stem of "a.b.json" is "a.b".
   */
  lemma {:induction false} StemOfJsonName(a: string)
    requires forall k :: k != |a| ==> !JsonAt(a + ".json", k)
    ensures Stem(a + ".json") == a
    decreases |a|
  {
    var f := a + ".json";
    if a == [] {
      assert f[..5] == ".json" && f[5..] == [];
    } else {
      assert f[..5] != ".json" by { assert !JsonAt(f, 0); }
      assert f[1..] == a[1..] + ".json";
      forall k | k != |a[1..]|
        ensures !JsonAt(a[1..] + ".json", k)
      {
        if JsonAt(f[1..], k) {
          assert f[1..][k..k + 5] == f[k + 1..k + 6];
          assert JsonAt(f, k + 1);
        }
      }
      StemOfJsonName(a[1..]);
      assert a == [a[0]] + a[1..];
    }
  }

  /**
   * The entries of a listing that `pick` keeps, each renamed as `pick` says, in
   * listing order: the shape of both directory comprehensions of the palette.
   */
  function Collect(pick: string -> Option<string>, listing: seq<string>): seq<string>
    decreases |listing|
  {
    if listing == [] then []
    else (if pick(listing[0]).Some? then [pick(listing[0]).value] else []) + Collect(pick, listing[1..])
  }

  lemma {:induction false} CollectMembers(pick: string -> Option<string>, listing: seq<string>, n: string)
    ensures n in Collect(pick, listing) <==> exists f :: f in listing && pick(f) == Some(n)
    decreases |listing|
  {
    if listing != [] {
      CollectMembers(pick, listing[1..], n);
      assert forall f :: f in listing <==> f == listing[0] || f in listing[1..];
    }
  }

  lemma {:induction false} CollectAppend(pick: string -> Option<string>, a: seq<string>, b: seq<string>)
    ensures Collect(pick, a + b) == Collect(pick, a) + Collect(pick, b)
    decreases |a|
  {
    if a == [] {
      assert a + b == b;
    } else {
      var head := if pick(a[0]).Some? then [pick(a[0]).value] else [];
      assert (a + b)[1..] == a[1..] + b;
      CollectAppend(pick, a[1..], b);
      calc {
        Collect(pick, a + b);
        head + Collect(pick, a[1..] + b);
        head + (Collect(pick, a[1..]) + Collect(pick, b));
        (head + Collect(pick, a[1..])) + Collect(pick, b);
      }
    }
  }

  lemma MultisetMiddle(x: seq<string>, y: seq<string>, z: seq<string>)
    ensures multiset(x + (y + z)) == multiset(y) + multiset(x + z)
  {
  }

  /** Taking one entry out of a listing takes its pick out of the collection. */
  lemma CollectWithout(pick: string -> Option<string>, front: seq<string>, x: string, back: seq<string>)
    ensures multiset(Collect(pick, front + [x] + back)) == multiset(Collect(pick, [x])) + multiset(Collect(pick, front + back))
  {
    assert front + [x] + back == front + ([x] + back);
    CollectAppend(pick, front, [x] + back);
    CollectAppend(pick, [x], back);
    CollectAppend(pick, front, back);
    MultisetMiddle(Collect(pick, front), Collect(pick, [x]), Collect(pick, back));
  }

  lemma MultisetWithout(a: seq<string>, b: seq<string>, i: nat)
    requires i < |b| && a != [] && b[i] == a[0] && multiset(a) == multiset(b)
    ensures multiset(a[1..]) == multiset(b[..i] + b[i + 1..])
  {
    assert a == [a[0]] + a[1..];
    assert b == b[..i] + [b[i]] + b[i + 1..];
    calc {
      multiset(a[1..]);
      (multiset{a[0]} + multiset(a[1..])) - multiset{a[0]};
      multiset(a) - multiset{a[0]};
      multiset(b) - multiset{b[i]};
      (multiset(b[..i]) + multiset{b[i]} + multiset(b[i + 1..])) - multiset{b[i]};
      multiset(b[..i]) + multiset(b[i + 1..]);
      multiset(b[..i] + b[i + 1..]);
    }
  }

  /** Putting the first entry back anywhere else in the listing keeps the collection's multiset. */
  lemma CollectMoveHead(pick: string -> Option<string>, a: seq<string>, front: seq<string>, back: seq<string>)
    requires a != []
    requires multiset(Collect(pick, a[1..])) == multiset(Collect(pick, front + back))
    ensures multiset(Collect(pick, a)) == multiset(Collect(pick, front + [a[0]] + back))
  {
    CollectWithout(pick, front, a[0], back);
    assert a == [a[0]] + a[1..];
    CollectAppend(pick, [a[0]], a[1..]);
  }

  /** The same entries listed in another order collect to the same entries in another order. */
  lemma {:induction false} CollectPermutation(pick: string -> Option<string>, a: seq<string>, b: seq<string>)
    requires multiset(a) == multiset(b)
    ensures multiset(Collect(pick, a)) == multiset(Collect(pick, b))
    decreases |a|
  {
    if a != [] {
      assert a[0] in multiset(b);
      var i :| 0 <= i < |b| && b[i] == a[0];
      var front, back := b[..i], b[i + 1..];
      assert b == front + [a[0]] + back;
      MultisetWithout(a, b, i);
      CollectPermutation(pick, a[1..], front + back);
      CollectMoveHead(pick, a, front, back);
      assert Collect(pick, b) == Collect(pick, front + [a[0]] + back);
    }
  }

  /** The preset a directory entry holds: the stem of a `.json` file. */
  function PresetOf(f: string): Option<string> {
    if EndsWith(f, ".json") then Some(Stem(f)) else None
  }

  /** `[f.replace(".json", "") for f in listing if f.endswith(".json")]` */
  function Stems(listing: seq<string>): seq<string> {
    Collect(PresetOf, listing)
  }

  /** The names `get_presets` returns for a presets directory with at least one preset file. */
  function PresetNames(listing: seq<string>): seq<string> {
    Sort(Stems(listing))
  }

  /**
   * The preset list is sorted, holds exactly the stems of the `.json` files, and
   * does not depend on the order the directory is listed in.
   */
  lemma {:induction false} PresetNamesSpec(listing: seq<string>, other: seq<string>, n: string)
    ensures Sorted(PresetNames(listing))
    ensures n in PresetNames(listing) <==> exists f :: f in listing && EndsWith(f, ".json") && Stem(f) == n
    ensures multiset(listing) == multiset(other) ==> PresetNames(listing) == PresetNames(other)
  {
    CollectMembers(PresetOf, listing, n);
    assert n in PresetNames(listing) <==> n in multiset(Stems(listing));
    if multiset(listing) == multiset(other) {
      CollectPermutation(PresetOf, listing, other);
      SortIndependentOfOrder(Stems(listing), Stems(other));
    }
  }

  /** A preset saved under any name appears in the list under its sanitised name. */
  lemma SavedPresetIsListed(listing: seq<string>, name: string)
    requires PresetFile(SafeName(name)) in listing
    ensures SafeName(name) in PresetNames(listing)
  {
    SafeNameIsSafe(name);
    StemOfPresetFile(SafeName(name));
    assert EndsWith(PresetFile(SafeName(name)), ".json");
    PresetNamesSpec(listing, listing, SafeName(name));
  }

  // ---------------------------------------------------------------------------
  // Loading (jingle_palette.py:36-42)

  /** `load_preset`: the parsed file; `{}` when it is missing or not valid JSON. */
  function Load(dir: map<string, JsonText>, name: string): (r: JsonText)
    ensures PresetFile(name) !in dir ==> r == Object(map[])
    ensures PresetFile(name) in dir && dir[PresetFile(name)].Malformed? ==> r == Object(map[])
    ensures PresetFile(name) in dir && !dir[PresetFile(name)].Malformed? ==> r == dir[PresetFile(name)]
  {
    if PresetFile(name) in dir && !dir[PresetFile(name)].Malformed? then dir[PresetFile(name)]
    else Object(map[])
  }

  /** The presets directory after `save_preset(name, slots)`. */
  function Saved(dir: map<string, JsonText>, name: string, slots: map<string, string>): map<string, JsonText> {
    dir[PresetFile(SafeName(name)) := Object(slots)]
  }

  /**
   * Saving then loading gives the saved slots back under the sanitised name, and
   * so under the name itself when it was already safe; other presets are untouched.
   */
  lemma SaveThenLoad(dir: map<string, JsonText>, name: string, slots: map<string, string>, other: string)
    ensures Load(Saved(dir, name, slots), SafeName(name)) == Object(slots)
    ensures IsSafeName(name) ==> Load(Saved(dir, name, slots), name) == Object(slots)
    ensures PresetFile(other) != PresetFile(SafeName(name)) ==> Load(Saved(dir, name, slots), other) == Load(dir, other)
  {
    var safe := SafeName(name);
    var saved := Saved(dir, name, slots);
    assert Load(saved, safe) == Object(slots) by {
      assert saved[PresetFile(safe)] == Object(slots);
    }
    assert IsSafeName(name) ==> Load(saved, name) == Object(slots) by {
      if IsSafeName(name) {
        SafeNameKeepsSafeNames(name);
      }
    }
    assert PresetFile(other) != PresetFile(safe) ==> Load(saved, other) == Load(dir, other) by {
      if PresetFile(other) != PresetFile(safe) {
        assert PresetFile(other) in saved <==> PresetFile(other) in dir;
      }
    }
  }

  // ---------------------------------------------------------------------------
  // The selected preset (jingle_palette.py:69-74)

  /** The session's preset, or the first one when there is none or it is no longer listed. */
  function Selected(current: Option<string>, all: seq<string>): (r: string)
    requires |all| > 0
    ensures r in all
    ensures current.Some? && current.value in all ==> r == current.value
    ensures current.None? || current.value !in all ==> r == all[0]
  {
    if current.Some? && current.value in all then current.value else all[0]
  }

  // ---------------------------------------------------------------------------
  // The pad grid (jingle_palette.py:137-149, 160-171, 181-192)

  predicate IsSlotId(k: string) {
    |k| == 2 && 'A' <= k[0] <= 'E' && '1' <= k[1] <= '6'
  }

  /** `f"{r}{c}"` for row label `"ABCDE"[row]` and column label `"123456"[col]`. */
  function SlotId(row: nat, col: nat): (k: string)
    requires row < 5 && col < 6
    ensures IsSlotId(k)
  {
    [('A' as int + row) as char, ('1' as int + col) as char]
  }

  function RowOf(k: string): (row: nat)
    requires IsSlotId(k)
    ensures row < 5
  {
    k[0] as int - 'A' as int
  }

  function ColOf(k: string): (col: nat)
    requires IsSlotId(k)
    ensures col < 6
  {
    k[1] as int - '1' as int
  }

  /** The 30 pads are exactly A1 .. E6, one per row and column. */
  lemma SlotIdsAreTheGrid(k: string, row: nat, col: nat)
    requires row < 5 && col < 6
    ensures IsSlotId(k) ==> SlotId(RowOf(k), ColOf(k)) == k
    ensures RowOf(SlotId(row, col)) == row && ColOf(SlotId(row, col)) == col
  {
  }

  /** `real_files`: the `.mp3` and `.wav` files of the pool, any letter case, sorted. */
  predicate IsAudioFile(f: string) {
    EndsWith(LowerAsciiString(f), ".mp3") || EndsWith(LowerAsciiString(f), ".wav")
  }

  function AudioOf(f: string): Option<string> {
    if IsAudioFile(f) then Some(f) else None
  }

  function AudioPool(listing: seq<string>): (pool: seq<string>)
    ensures Sorted(pool)
  {
    Sort(Collect(AudioOf, listing))
  }

  /**
   * The pool holds exactly the listing's sound files and does not depend on the
   * order the directory is listed in.
   */
  lemma {:induction false} AudioPoolSpec(a: seq<string>, b: seq<string>, f: string)
    ensures f in AudioPool(a) <==> f in a && IsAudioFile(f)
    ensures multiset(a) == multiset(b) ==> AudioPool(a) == AudioPool(b)
  {
    CollectMembers(AudioOf, a, f);
    assert f in AudioPool(a) <==> f in multiset(Collect(AudioOf, a));
    if multiset(a) == multiset(b) {
      CollectPermutation(AudioOf, a, b);
      SortIndependentOfOrder(Collect(AudioOf, a), Collect(AudioOf, b));
    }
  }

  /** One row of the editor: its label and its six cells (None for an empty cell). */
  datatype GridRow = GridRow(heading: string, cells: seq<Option<string>>)

  /** What the editor gives back: five rows A .. E of six cells, as `num_rows="fixed"` and the disabled label column keep it. */
  predicate WellShaped(grid: seq<GridRow>) {
    |grid| == 5 && forall r :: 0 <= r < 5 ==> grid[r].heading == [('A' as int + r) as char] && |grid[r].cells| == 6
  }

  /**
   * The cell the editor starts with for pad `k` (jingle_palette.py:146-147): the
   * assigned file, dropped when it is not in the pool.
   */
  function Cell(slots: map<string, string>, pool: seq<string>, k: string): (cell: Option<string>)
    ensures cell.Some? ==> k in slots && cell.value == slots[k]
    ensures cell.Some? && cell.value != "" ==> cell.value in pool
    ensures k in slots && slots[k] in pool ==> cell == Some(slots[k])
    ensures k in slots && slots[k] == "" ==> cell == Some("")
    ensures k in slots && slots[k] != "" && slots[k] !in pool ==> cell == None
  {
    if k !in slots then None
    else if slots[k] != "" && slots[k] !in pool then None
    else Some(slots[k])
  }

  /** A cell that `if val:` keeps. */
  predicate Filled(cell: Option<string>) {
    cell.Some? && cell.value != ""
  }

  /** The editor's grid (jingle_palette.py:137-149): row by row, column by column. */
  method BuildGrid(slots: map<string, string>, pool: seq<string>) returns (grid: seq<GridRow>)
    ensures WellShaped(grid)
    ensures forall r, c :: 0 <= r < 5 && 0 <= c < 6 ==> grid[r].cells[c] == Cell(slots, pool, SlotId(r, c))
  {
    grid := [];
    var r := 0;
    while r < 5
      invariant 0 <= r <= 5 && |grid| == r
      invariant forall i :: 0 <= i < r ==> grid[i].heading == [('A' as int + i) as char] && |grid[i].cells| == 6
      invariant forall i, c :: 0 <= i < r && 0 <= c < 6 ==> grid[i].cells[c] == Cell(slots, pool, SlotId(i, c))
    {
      var cells: seq<Option<string>> := [];
      var c := 0;
      while c < 6
        invariant 0 <= c <= 6 && |cells| == c
        invariant forall j :: 0 <= j < c ==> cells[j] == Cell(slots, pool, SlotId(r, j))
      {
        var slot := SlotId(r, c);
        var val := if slot in slots then Some(slots[slot]) else None;
        if val.Some? && val.value != "" && val.value !in pool {
          val := None;
        }
        cells := cells + [val];
        c := c + 1;
      }
      grid := grid + [GridRow([('A' as int + r) as char], cells)];
      r := r + 1;
    }
  }

  /** What "Sauvegarder la Grille" writes for an edited grid: exactly its filled cells, keyed by pad. */
  ghost predicate SavedFrom(slots: map<string, string>, grid: seq<GridRow>)
    requires WellShaped(grid)
  {
    && (forall k :: k in slots ==> IsSlotId(k))
    && (forall r, c :: 0 <= r < 5 && 0 <= c < 6 ==>
          (SlotId(r, c) in slots <==> Filled(grid[r].cells[c]))
          && (SlotId(r, c) in slots ==> slots[SlotId(r, c)] == grid[r].cells[c].value))
  }

  /** Saving the grid (jingle_palette.py:161-169): empty cells are dropped. */
  method SaveGrid(grid: seq<GridRow>) returns (slots: map<string, string>)
    requires WellShaped(grid)
    ensures SavedFrom(slots, grid)
  {
    slots := map[];
    var r := 0;
    while r < 5
      invariant 0 <= r <= 5
      invariant forall k :: k in slots ==> IsSlotId(k) && RowOf(k) < r
      invariant forall i, c :: 0 <= i < r && 0 <= c < 6 ==>
        (SlotId(i, c) in slots <==> Filled(grid[i].cells[c]))
        && (SlotId(i, c) in slots ==> slots[SlotId(i, c)] == grid[i].cells[c].value)
    {
      var c := 0;
      while c < 6
        invariant 0 <= c <= 6
        invariant forall k :: k in slots ==> IsSlotId(k) && (RowOf(k) < r || (RowOf(k) == r && ColOf(k) < c))
        invariant forall i, j :: 0 <= i < r && 0 <= j < 6 ==>
          (SlotId(i, j) in slots <==> Filled(grid[i].cells[j]))
          && (SlotId(i, j) in slots ==> slots[SlotId(i, j)] == grid[i].cells[j].value)
        invariant forall j :: 0 <= j < c ==>
          (SlotId(r, j) in slots <==> Filled(grid[r].cells[j]))
          && (SlotId(r, j) in slots ==> slots[SlotId(r, j)] == grid[r].cells[j].value)
      {
        var val := grid[r].cells[c];
        if val.Some? && val.value != "" {
          assert grid[r].heading + [('1' as int + c) as char] == SlotId(r, c);
          slots := slots[grid[r].heading + [('1' as int + c) as char] := val.value];
        }
        c := c + 1;
      }
      r := r + 1;
    }
  }

  /** The assignments of `slots` that the grid shows: a pad of A1 .. E6 with a file of the pool. */
  function Kept(slots: map<string, string>, pool: seq<string>): (kept: map<string, string>)
    ensures forall k :: k in kept ==> IsSlotId(k) && k in slots && kept[k] == slots[k] && slots[k] in pool
  {
    map k | k in slots && IsSlotId(k) && slots[k] != "" && slots[k] in pool :: slots[k]
  }

  /**
   * Saving an unedited grid keeps exactly the assignments it shows: pads outside
   * A1 .. E6, empty names and files no longer in the pool are dropped.
   */
  lemma {:induction false} SaveOfUneditedGrid(slots: map<string, string>, pool: seq<string>, grid: seq<GridRow>, saved: map<string, string>)
    requires WellShaped(grid)
    requires forall r, c :: 0 <= r < 5 && 0 <= c < 6 ==> grid[r].cells[c] == Cell(slots, pool, SlotId(r, c))
    requires SavedFrom(saved, grid)
    ensures saved == Kept(slots, pool)
  {
    forall k | k in saved || k in Kept(slots, pool)
      ensures k in saved && k in Kept(slots, pool) && saved[k] == Kept(slots, pool)[k]
    {
      var r, c := RowOf(k), ColOf(k);
      assert SlotId(r, c) == k;
    }
  }

  // ---------------------------------------------------------------------------
  // The player's pads (jingle_palette.py:181-192)

  /** `display`: names of 16 characters or more are cut to 14 and marked with "..". */
  function Display(name: string): (r: string)
    ensures |r| <= 16
    ensures |name| < 16 ==> r == name
    ensures |name| >= 16 ==> |r| == 16 && r[..14] == name[..14] && r[14..] == ".."
  {
    if |name| < 16 then name else name[..14] + ".."
  }

  /** The MIME type: audio/wav for a ".wav" extension in any case, audio/mpeg for anything else. */
  function Mime(filename: string): (r: string)
    ensures r == "audio/wav" <==> LowerAsciiString(SplitExt(filename).1) == ".wav"
    ensures r == "audio/wav" || r == "audio/mpeg"
  {
    if LowerAsciiString(SplitExt(filename).1) == ".wav" then "audio/wav" else "audio/mpeg"
  }

  /** A dot-free, non-empty stem followed by a dot-led extension with no other dot splits back into the two. */
  lemma SplitAtExtension(stem: string, ext: string)
    requires '.' !in stem && stem != []
    requires |ext| > 0 && ext[0] == '.' && '.' !in ext[1..]
    ensures SplitExt(stem + ext) == (stem, ext)
  {
    var f := stem + ext;
    assert f[|stem|] == '.';
    forall k | |stem| < k < |f|
      ensures f[k] != '.'
    {
      assert f[k] == ext[1..][k - |stem| - 1];
    }
    assert LastIndexOf(f, '.') == |stem|;
    assert f[0] == stem[0] != '.';
    assert f[..|stem|] == stem && f[|stem|..] == ext;
  }

  /** Of the pool's four extensions, exactly the two spellings of ".wav" lower-case to ".wav". */
  lemma LowerPoolExtension(ext: string)
    requires ext == ".wav" || ext == ".WAV" || ext == ".mp3" || ext == ".MP3"
    ensures LowerAsciiString(ext) == ".wav" <==> ext == ".wav" || ext == ".WAV"
  {
    var lower := LowerAsciiString(ext);
    if ext == ".wav" || ext == ".WAV" {
      assert lower[0] == '.' && lower[1] == 'w' && lower[2] == 'a' && lower[3] == 'v';
    } else {
      assert lower[1] == 'm';
    }
  }

  /** A pool file named `<stem>.wav` (any case) plays as audio/wav, `<stem>.mp3` as audio/mpeg. */
  lemma PoolFileMime(stem: string, ext: string)
    requires '.' !in stem && stem != []
    requires ext == ".wav" || ext == ".WAV" || ext == ".mp3" || ext == ".MP3"
    ensures SplitExt(stem + ext) == (stem, ext)
    ensures Mime(stem + ext) == (if ext == ".wav" || ext == ".WAV" then "audio/wav" else "audio/mpeg")
  {
    assert '.' !in ext[1..] by {
      assert ext[1..] == [ext[1], ext[2], ext[3]];
    }
    SplitAtExtension(stem, ext);
    LowerPoolExtension(ext);
  }

  datatype Pad =
    | EmptyPad(slot: string)
    | SoundPad(slot: string, file: string, name: string, display: string, mime: string)

  /** The pad for slot `k` of the player (jingle_palette.py:184-202, without its HTML). */
  function PadFor(slots: map<string, string>, pool: seq<string>, k: string): (p: Pad)
    ensures p.slot == k
    ensures p.SoundPad? <==> k in slots && slots[k] != "" && slots[k] in pool
    ensures p.SoundPad? ==> p.file == slots[k] && |p.display| <= 16
    ensures p.SoundPad? ==> p.name == SplitExt(slots[k]).0 && p.display == Display(p.name) && p.mime == Mime(slots[k])
  {
    if k in slots && slots[k] != "" && slots[k] in pool then
      var name := SplitExt(slots[k]).0;
      SoundPad(k, slots[k], name, Display(name), Mime(slots[k]))
    else EmptyPad(k)
  }

  /** A pad plays a sound exactly when the editor's cell for it is filled. */
  lemma PadsMatchGrid(slots: map<string, string>, pool: seq<string>, k: string)
    ensures PadFor(slots, pool, k).SoundPad? <==> Filled(Cell(slots, pool, k))
  {
  }

  /** The player's 30 pads in reading order A1, A2, .. E6 (jingle_palette.py:181-202). */
  method BuildPads(slots: map<string, string>, pool: seq<string>) returns (pads: seq<Pad>)
    ensures |pads| == 30
    ensures forall r, c :: 0 <= r < 5 && 0 <= c < 6 ==> pads[6 * r + c] == PadFor(slots, pool, SlotId(r, c))
  {
    pads := [];
    var r := 0;
    while r < 5
      invariant 0 <= r <= 5 && |pads| == 6 * r
      invariant forall i, j :: 0 <= i < r && 0 <= j < 6 ==> pads[6 * i + j] == PadFor(slots, pool, SlotId(i, j))
    {
      var c := 0;
      while c < 6
        invariant 0 <= c <= 6 && |pads| == 6 * r + c
        invariant forall i, j :: 0 <= i < r && 0 <= j < 6 ==> pads[6 * i + j] == PadFor(slots, pool, SlotId(i, j))
        invariant forall j :: 0 <= j < c ==> pads[6 * r + j] == PadFor(slots, pool, SlotId(r, j))
      {
        pads := pads + [PadFor(slots, pool, SlotId(r, c))];
        c := c + 1;
      }
      r := r + 1;
    }
  }

  // ---------------------------------------------------------------------------
  // The palette's directory and session, updated in place

  class JinglePalette {
    /** The presets directory: file name to content. */
    var presets: map<string, JsonText>
    /** `st.session_state["current_preset"]`, when set. */
    var current: Option<string>

    constructor (presets0: map<string, JsonText>)
      ensures presets == presets0 && current.None?
    {
      presets := presets0;
      current := None;
    }

    /** `save_preset` (jingle_palette.py:44-50). */
    method SavePreset(name: string, slots: map<string, string>)
      modifies this
      ensures presets == Saved(old(presets), name, slots)
      ensures current == old(current)
    {
      var safe := SafeName(name);
      presets := presets[PresetFile(safe) := Object(slots)];
    }

    /** `load_preset` (jingle_palette.py:36-42). */
    function LoadPreset(name: string): (r: JsonText)
      reads this
      ensures PresetFile(name) !in presets ==> r == Object(map[])
      ensures PresetFile(name) in presets && presets[PresetFile(name)].Malformed? ==> r == Object(map[])
      ensures PresetFile(name) in presets && !presets[PresetFile(name)].Malformed? ==> r == presets[PresetFile(name)]
    {
      Load(presets, name)
    }

    /** `delete_preset` (jingle_palette.py:52-55): a missing preset is left alone. */
    method DeletePreset(name: string)
      modifies this
      ensures presets == old(presets) - {PresetFile(name)}
      ensures PresetFile(name) !in old(presets) ==> presets == old(presets)
      ensures current == old(current)
    {
      if PresetFile(name) in presets {
        presets := presets - {PresetFile(name)};
      }
    }

    /**
     * `get_presets` (jingle_palette.py:26-34): the sorted preset names; when there
     * are none, "Défaut" is created with no pads and is the whole list.
     */
    method GetPresets() returns (names: seq<string>, listing: seq<string>)
      modifies this
      ensures Lists(listing, old(presets).Keys)
      ensures |names| > 0
      ensures Stems(listing) != [] ==> names == PresetNames(listing) && presets == old(presets)
      ensures Stems(listing) == [] ==> names == [DefaultPreset] && presets == Saved(old(presets), DefaultPreset, map[])
      ensures current == old(current)
    {
      listing := ListDir(presets.Keys);
      var found := Stems(listing);
      if found == [] {
        SavePreset(DefaultPreset, map[]);
        DefaultNameIsSafe();
        names := [DefaultPreset];
      } else {
        names := Sort(found);
        assert |names| == |multiset(found)| > 0;
      }
    }

    /** jingle_palette.py:69-74: an unset or vanished selection falls back to the first preset. */
    method SyncSelection(all: seq<string>)
      requires |all| > 0
      modifies this
      ensures current == Some(Selected(old(current), all))
      ensures presets == old(presets)
    {
      if current.None? {
        current := Some(all[0]);
      }
      if current.value !in all {
        current := Some(all[0]);
      }
    }

    /**
     * "Créer" (jingle_palette.py:92-96): a non-empty name is saved with no pads and
     * selected as typed, before sanitising.
     */
    method CreatePreset(newName: string)
      modifies this
      ensures newName == "" ==> presets == old(presets) && current == old(current)
      ensures newName != "" ==> presets == Saved(old(presets), newName, map[]) && current == Some(newName)
    {
      if newName != "" {
        SavePreset(newName, map[]);
        current := Some(newName);
      }
    }

    /**
     * "Supprimer la palette active" (jingle_palette.py:99-105): refused when it is
     * the only preset; otherwise its file goes and the selection moves to the
     * first listed preset.
     */
    method DeleteActive(all: seq<string>, selected: string) returns (refused: bool)
      requires |all| > 0
      modifies this
      ensures refused <==> |all| <= 1
      ensures refused ==> presets == old(presets) && current == old(current)
      ensures !refused ==> presets == old(presets) - {PresetFile(selected)} && current == Some(all[0])
    {
      refused := |all| <= 1;
      if !refused {
        DeletePreset(selected);
        current := Some(all[0]);
      }
    }
  }

  /**
   * Right after "Créer", a new name that was already safe is listed under itself,
   * so the next run keeps it selected.
   */
  lemma CreatedSelectionSurvives(listing: seq<string>, newName: string)
    requires PresetFile(SafeName(newName)) in listing
    requires IsSafeName(newName)
    ensures newName in PresetNames(listing)
    ensures Selected(Some(newName), PresetNames(listing)) == newName
  {
    SavedPresetIsListed(listing, newName);
    SafeNameKeepsSafeNames(newName);
  }
}
