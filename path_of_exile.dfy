/**
 * The Path of Exile search commands: currency-name resolution, league-name
 * shortening, and the character listing of `PathOfExile` (league filter and
 * pages of nine). HTTP fetches are replaced by their outcome, passed in.
 */
module PathOfExile {
  import opened Wrappers
  import opened Text
  import opened Numbers

  // ---------------------------------------------------------------------------
  // Currency names
  // ---------------------------------------------------------------------------

  /**
   * The alias dictionary, in declaration order: (key, canonical name). Keys are
   * compared ignoring case; values are compared exactly. The first 26 entries
   * map each canonical name to itself; the rest are aliases. The entries are
   * written in groups of ten, which keeps indexing into the table cheap for
   * the verifier.
   */
  const CurrencyTable: seq<(string, string)> := CurrencyRows0 + CurrencyRows1 + CurrencyRows2 + CurrencyRows3 + CurrencyRows4 + CurrencyRows5 + CurrencyRows6 + CurrencyRows7

  const CurrencyRows0: seq<(string, string)> := [
    ("Chaos Orb", "Chaos Orb"),
    ("Orb of Alchemy", "Orb of Alchemy"),
    ("Jeweller's Orb", "Jeweller's Orb"),
    ("Exalted Orb", "Exalted Orb"),
    ("Mirror of Kalandra", "Mirror of Kalandra"),
    ("Vaal Orb", "Vaal Orb"),
    ("Orb of Alteration", "Orb of Alteration"),
    ("Orb of Scouring", "Orb of Scouring"),
    ("Divine Orb", "Divine Orb"),
    ("Orb of Annulment", "Orb of Annulment")
  ]
  const CurrencyRows1: seq<(string, string)> := [
    ("Master Cartographer's Sextant", "Master Cartographer's Sextant"),
    ("Journeyman Cartographer's Sextant", "Journeyman Cartographer's Sextant"),
    ("Apprentice Cartographer's Sextant", "Apprentice Cartographer's Sextant"),
    ("Blessed Orb", "Blessed Orb"),
    ("Orb of Regret", "Orb of Regret"),
    ("Gemcutter's Prism", "Gemcutter's Prism"),
    ("Glassblower's Bauble", "Glassblower's Bauble"),
    ("Orb of Fusing", "Orb of Fusing"),
    ("Cartographer's Chisel", "Cartographer's Chisel"),
    ("Chromatic Orb", "Chromatic Orb")
  ]
  const CurrencyRows2: seq<(string, string)> := [
    ("Orb of Augmentation", "Orb of Augmentation"),
    ("Blacksmith's Whetstone", "Blacksmith's Whetstone"),
    ("Orb of Transmutation", "Orb of Transmutation"),
    ("Armourer's Scrap", "Armourer's Scrap"),
    ("Scroll of Wisdom", "Scroll of Wisdom"),
    ("Regal Orb", "Regal Orb"),
    ("Chaos", "Chaos Orb"),
    ("Alch", "Orb of Alchemy"),
    ("Alchs", "Orb of Alchemy"),
    ("Jews", "Jeweller's Orb")
  ]
  const CurrencyRows3: seq<(string, string)> := [
    ("Jeweller", "Jeweller's Orb"),
    ("Jewellers", "Jeweller's Orb"),
    ("Jeweller's", "Jeweller's Orb"),
    ("X", "Exalted Orb"),
    ("Ex", "Exalted Orb"),
    ("Exalt", "Exalted Orb"),
    ("Exalts", "Exalted Orb"),
    ("Mirror", "Mirror of Kalandra"),
    ("Mirrors", "Mirror of Kalandra"),
    ("Vaal", "Vaal Orb")
  ]
  const CurrencyRows4: seq<(string, string)> := [
    ("Alt", "Orb of Alteration"),
    ("Alts", "Orb of Alteration"),
    ("Scour", "Orb of Scouring"),
    ("Scours", "Orb of Scouring"),
    ("Divine", "Divine Orb"),
    ("Annul", "Orb of Annulment"),
    ("Annulment", "Orb of Annulment"),
    ("Master Sextant", "Master Cartographer's Sextant"),
    ("Journeyman Sextant", "Journeyman Cartographer's Sextant"),
    ("Apprentice Sextant", "Apprentice Cartographer's Sextant")
  ]
  const CurrencyRows5: seq<(string, string)> := [
    ("Blessed", "Blessed Orb"),
    ("Regret", "Orb of Regret"),
    ("Regrets", "Orb of Regret"),
    ("Gcp", "Gemcutter's Prism"),
    ("Glassblowers", "Glassblower's Bauble"),
    ("Glassblower's", "Glassblower's Bauble"),
    ("Fusing", "Orb of Fusing"),
    ("Fuses", "Orb of Fusing"),
    ("Fuse", "Orb of Fusing"),
    ("Chisel", "Cartographer's Chisel")
  ]
  const CurrencyRows6: seq<(string, string)> := [
    ("Chisels", "Cartographer's Chisel"),
    ("Chance", "Orb of Chance"),
    ("Chances", "Orb of Chance"),
    ("Chrome", "Chromatic Orb"),
    ("Chromes", "Chromatic Orb"),
    ("Aug", "Orb of Augmentation"),
    ("Augmentation", "Orb of Augmentation"),
    ("Augment", "Orb of Augmentation"),
    ("Augments", "Orb of Augmentation"),
    ("Whetstone", "Blacksmith's Whetstone")
  ]
  const CurrencyRows7: seq<(string, string)> := [
    ("Whetstones", "Blacksmith's Whetstone"),
    ("Transmute", "Orb of Transmutation"),
    ("Transmutes", "Orb of Transmutation"),
    ("Armourers", "Armourer's Scrap"),
    ("Armourer's", "Armourer's Scrap"),
    ("Wisdom Scroll", "Scroll of Wisdom"),
    ("Wisdom Scrolls", "Scroll of Wisdom"),
    ("Regal", "Regal Orb"),
    ("Regals", "Regal Orb")
  ]

  /** `ContainsValue`: some entry's canonical name is exactly `s`. */
  predicate IsCurrencyValue(s: string) {
    exists i :: 0 <= i < |CurrencyTable| && CurrencyTable[i].1 == s
  }

  /** Some key equals `s` ignoring case. */
  predicate IsCurrencyKey(s: string) {
    exists i :: 0 <= i < |CurrencyTable| && EqualsIgnoreCase(CurrencyTable[i].0, s)
  }

  /** Position of the first entry whose canonical name is exactly `s`. */
  function ValueIndex(t: seq<(string, string)>, s: string): (r: Option<nat>)
    ensures r.Some? ==> r.value < |t| && t[r.value].1 == s
    ensures r.Some? ==> forall i :: 0 <= i < r.value ==> t[i].1 != s
    ensures r.None? ==> forall i :: 0 <= i < |t| ==> t[i].1 != s
  {
    if |t| == 0 then None
    else if t[0].1 == s then Some(0)
    else match ValueIndex(t[1..], s)
      case None => None
      case Some(j) =>
        assert t[1..][j] == t[j + 1];
        assert forall i :: 1 <= i <= j ==> t[i] == t[1..][i - 1];
        Some(j + 1)
  }

  /** Position of the first entry whose key equals `s` ignoring case. */
  function KeyIndex(t: seq<(string, string)>, s: string): (r: Option<nat>)
    ensures r.Some? ==> r.value < |t| && EqualsIgnoreCase(t[r.value].0, s)
    ensures r.Some? ==> forall i :: 0 <= i < r.value ==> !EqualsIgnoreCase(t[i].0, s)
    ensures r.None? ==> forall i :: 0 <= i < |t| ==> !EqualsIgnoreCase(t[i].0, s)
  {
    if |t| == 0 then None
    else if EqualsIgnoreCase(t[0].0, s) then Some(0)
    else match KeyIndex(t[1..], s)
      case None => None
      case Some(j) =>
        assert t[1..][j] == t[j + 1];
        assert forall i :: 1 <= i <= j ==> t[i] == t[1..][i - 1];
        Some(j + 1)
  }

  /** The exception `ShortCurrencyName` raises: the dictionary indexer's missing key. */
  datatype LookupError = KeyNotFound(key: string)

  /**
   * `ShortCurrencyName`: a name that already is a canonical value (exact case)
   * comes back unchanged; otherwise it is looked up as an alias ignoring case.
   */
  function ShortCurrencyName(s: string): (r: Result<string, LookupError>)
    ensures IsCurrencyValue(s) ==> r == Ok(s)
    ensures !IsCurrencyValue(s) && IsCurrencyKey(s) ==>
      exists i :: 0 <= i < |CurrencyTable| && EqualsIgnoreCase(CurrencyTable[i].0, s)
                  && r == Ok(CurrencyTable[i].1)
    ensures r.Err? <==> !IsCurrencyValue(s) && !IsCurrencyKey(s)
    ensures r.Err? ==> r.error == KeyNotFound(s)
    ensures r.Ok? ==> IsCurrencyValue(r.value)
  {
    if ValueIndex(CurrencyTable, s).Some? then Ok(s)
    else match KeyIndex(CurrencyTable, s)
      case None => Err(KeyNotFound(s))
      case Some(i) => Ok(CurrencyTable[i].1)
  }

  /** A name that is no canonical value resolves through the first key that matches it. */
  lemma ResolvesThrough(s: string, k: nat)
    requires k < |CurrencyTable|
    requires forall i :: 0 <= i < |CurrencyTable| ==> CurrencyTable[i].1 != s
    requires EqualsIgnoreCase(CurrencyTable[k].0, s)
    requires forall i :: 0 <= i < k ==> !EqualsIgnoreCase(CurrencyTable[i].0, s)
    ensures ShortCurrencyName(s) == Ok(CurrencyTable[k].1)
  {
    var r := KeyIndex(CurrencyTable, s);
    assert r.Some?;
    assert r.value == k;
  }

  /** Every canonical name is at least eight characters long ("Vaal Orb"). */
  lemma ValuesAreLong()
    ensures forall i :: 0 <= i < |CurrencyTable| ==> |CurrencyTable[i].1| >= 8
  {
  }

  /** No key before the first "Ex"-like entry has two characters. */
  lemma NoTwoLetterKeyBefore34()
    ensures forall i :: 0 <= i < 34 ==> |CurrencyTable[i].0| != 2
  {
  }

  lemma NoOneLetterKeyBefore33()
    ensures forall i :: 0 <= i < 33 ==> |CurrencyTable[i].0| != 1
  {
  }

  lemma NoSixLetterKeyBefore36()
    ensures forall i :: 0 <= i < 36 ==> |CurrencyTable[i].0| != 6
  {
  }

  /** Aliases resolve whatever their case: "ex", "X" and "exalts" all name the Exalted Orb. */
  lemma ExaltedAliasEx()
    ensures ShortCurrencyName("ex") == Ok("Exalted Orb")
  {
    ValuesAreLong();
    NoTwoLetterKeyBefore34();
    ResolvesThrough("ex", 34);
  }

  lemma ExaltedAliasX()
    ensures ShortCurrencyName("X") == Ok("Exalted Orb")
  {
    ValuesAreLong();
    NoOneLetterKeyBefore33();
    ResolvesThrough("X", 33);
  }

  lemma ExaltedAliasExalts()
    ensures ShortCurrencyName("exalts") == Ok("Exalted Orb")
  {
    ValuesAreLong();
    NoSixLetterKeyBefore36();
    ResolvesThrough("exalts", 36);
  }

  /** The thirteen-character keys differ from "orb of chance" at position 7, ignoring case. */
  lemma ThirteenLetterKeys()
    ensures forall i :: 0 <= i < |CurrencyTable| && |CurrencyTable[i].0| == 13 ==>
      CurrencyTable[i].0[7] != 'c' && CurrencyTable[i].0[7] != 'C'
  {
  }

  lemma OrbOfChanceIsNoKey()
    ensures forall i :: 0 <= i < |CurrencyTable| ==> !EqualsIgnoreCase(CurrencyTable[i].0, "orb of chance")
  {
    ThirteenLetterKeys();
    forall i | 0 <= i < |CurrencyTable|
      ensures !EqualsIgnoreCase(CurrencyTable[i].0, "orb of chance")
    {
      var key := CurrencyTable[i].0;
      if |key| == 13 {
        assert ToUpper(key[7]) != ToUpper("orb of chance"[7]);
      }
    }
  }

  lemma OrbOfChanceLowerIsNoValue()
    ensures forall i :: 0 <= i < |CurrencyTable| ==> CurrencyTable[i].1 != "orb of chance"
  {
  }

  /** "Orb of Chance" is a value but not a key, so only its exact spelling resolves. */
  lemma ChanceOnlyByExactValue()
    ensures ShortCurrencyName("Orb of Chance") == Ok("Orb of Chance")
    ensures ShortCurrencyName("orb of chance") == Err(KeyNotFound("orb of chance"))
  {
    assert CurrencyTable[61] == ("Chance", "Orb of Chance");
    OrbOfChanceIsNoKey();
    OrbOfChanceLowerIsNoValue();
  }

  // ---------------------------------------------------------------------------
  // League names
  // ---------------------------------------------------------------------------

  const Hardcore: string := "Hardcore"
  const HardcoreShort: string := "HC"

  /** An occurrence of "Hardcore", in any case, starts at position `i` of `s`. */
  predicate HardcoreAt(s: string, i: int) {
    0 <= i && i + |Hardcore| <= |s| && EqualsIgnoreCase(s[i..i + |Hardcore|], Hardcore)
  }

  /**
   * `ShortLeagueName`: the regular-expression replacement of "Hardcore" by
   * "HC", ignoring case, scanning left to right over non-overlapping matches.
   */
  function ShortLeagueName(s: string): (r: string)
    ensures |r| <= |s|
    decreases |s|
  {
    if |s| < |Hardcore| then s
    else if HardcoreAt(s, 0) then HardcoreShort + ShortLeagueName(s[|Hardcore|..])
    else [s[0]] + ShortLeagueName(s[1..])
  }

  /** Dropping the first character keeps a text free of occurrences before position `n`. */
  lemma ShiftedNoOccurrence(s: string, n: int)
    requires |s| > 0
    requires forall i :: 0 <= i < n + 1 ==> !HardcoreAt(s, i)
    ensures forall i :: 0 <= i < n ==> !HardcoreAt(s[1..], i)
  {
    forall i | 0 <= i < n ensures !HardcoreAt(s[1..], i) {
      if i + |Hardcore| <= |s| - 1 {
        assert s[1..][i..i + |Hardcore|] == s[i + 1..i + 1 + |Hardcore|];
        assert !HardcoreAt(s, i + 1);
      }
    }
  }

  /** A name without any occurrence of "Hardcore" comes back as it is. */
  lemma {:induction false} NoHardcoreUnchanged(s: string)
    requires forall i :: 0 <= i < |s| ==> !HardcoreAt(s, i)
    ensures ShortLeagueName(s) == s
    decreases |s|
  {
    if |s| >= |Hardcore| {
      assert !HardcoreAt(s, 0);
      ShiftedNoOccurrence(s, |s| - 1);
      NoHardcoreUnchanged(s[1..]);
      assert [s[0]] + s[1..] == s;
    }
  }

  /** When no occurrence starts before position `n`, the first `n` characters are copied. */
  lemma {:induction false} CopiesPrefix(s: string, n: nat)
    requires n <= |s|
    requires forall i :: 0 <= i < n ==> !HardcoreAt(s, i)
    ensures ShortLeagueName(s) == s[..n] + ShortLeagueName(s[n..])
    decreases n
  {
    if n > 0 && |s| < |Hardcore| {
      assert ShortLeagueName(s[n..]) == s[n..];
      assert s[..n] + s[n..] == s;
    } else if n > 0 {
      assert !HardcoreAt(s, 0);
      ShiftedNoOccurrence(s, n - 1);
      CopiesPrefix(s[1..], n - 1);
      assert s[1..][..n - 1] == s[1..n];
      assert s[1..][n - 1..] == s[n..];
      assert [s[0]] + s[1..n] == s[..n];
    }
  }

  /** "HC" followed by a text without occurrences has no occurrence either. */
  lemma ShortPrefixAddsNoOccurrence(t: string)
    requires forall i :: !HardcoreAt(t, i)
    ensures forall i :: !HardcoreAt(HardcoreShort + t, i)
  {
    var u := HardcoreShort + t;
    forall i ensures !HardcoreAt(u, i) {
      if i == 0 && |u| >= |Hardcore| {
        assert u[..|Hardcore|][1] == 'C';
      } else if i == 1 && |u| >= 1 + |Hardcore| {
        assert u[1..1 + |Hardcore|][0] == 'C';
      } else if 2 <= i && i + |Hardcore| <= |u| {
        assert u[i..i + |Hardcore|] == t[i - 2..i - 2 + |Hardcore|];
        assert !HardcoreAt(t, i - 2);
      }
    }
  }

  /** After shortening, no occurrence of "Hardcore" is left. */
  lemma {:induction false} NoHardcoreLeft(s: string)
    ensures forall i :: !HardcoreAt(ShortLeagueName(s), i)
    decreases |s|
  {
    if |s| < |Hardcore| {
    } else if HardcoreAt(s, 0) {
      NoHardcoreLeft(s[|Hardcore|..]);
      ShortPrefixAddsNoOccurrence(ShortLeagueName(s[|Hardcore|..]));
    } else {
      var t := ShortLeagueName(s[1..]);
      NoHardcoreLeft(s[1..]);
      var u := [s[0]] + t;
      assert u == ShortLeagueName(s);
      forall i ensures !HardcoreAt(u, i) {
        if 0 < i && i + |Hardcore| <= |u| {
          assert u[i..i + |Hardcore|] == t[i - 1..i - 1 + |Hardcore|];
          assert !HardcoreAt(t, i - 1);
        } else if i == 0 {
          FirstCharCannotStartOccurrence(s, t);
        }
      }
    }
  }

  /**
   * The case of `NoHardcoreLeft` where the kept first character would begin an
   * occurrence together with the shortened rest: positions 1..7 of an
   * occurrence spell "ardcore", which holds no 'H', so the rest must have been
   * copied unchanged, and then the occurrence was already in `s`.
   */
  lemma FirstCharCannotStartOccurrence(s: string, t: string)
    requires |s| >= |Hardcore| && !HardcoreAt(s, 0)
    requires t == ShortLeagueName(s[1..])
    ensures !HardcoreAt([s[0]] + t, 0)
  {
    var rest := s[1..];
    if j :| 0 <= j < |Hardcore| - 1 && HardcoreAt(rest, j) {
      EarlyOccurrenceBreaksMatch(rest, t, s[0], j);
    } else {
      CopiesPrefix(rest, |Hardcore| - 1);
      assert ([s[0]] + t)[..|Hardcore|] == s[..|Hardcore|];
    }
  }

  /** An occurrence in the first seven positions of the rest puts an 'H' where "ardcore" has none. */
  lemma EarlyOccurrenceBreaksMatch(rest: string, t: string, c: char, j: int)
    requires 0 <= j < |Hardcore| - 1 && HardcoreAt(rest, j)
    requires t == ShortLeagueName(rest)
    ensures !HardcoreAt([c] + t, 0)
  {
    var u := [c] + t;
    var k := FirstOccurrence(rest, j);
    ShortenedHasHAtFirstOccurrence(rest, k);
    if |u| >= |Hardcore| {
      assert u[..|Hardcore|][k + 1] == 'H';
      assert ToUpper(Hardcore[k + 1]) != 'H';
    }
  }

  /** The shortened name holds the 'H' of "HC" where the first occurrence started. */
  lemma ShortenedHasHAtFirstOccurrence(s: string, k: nat)
    requires HardcoreAt(s, k)
    requires forall i :: 0 <= i < k ==> !HardcoreAt(s, i)
    ensures k < |ShortLeagueName(s)| && ShortLeagueName(s)[k] == 'H'
  {
    CopiesPrefix(s, k);
    assert s[k..][0..|Hardcore|] == s[k..k + |Hardcore|];
    assert ShortLeagueName(s[k..]) == HardcoreShort + ShortLeagueName(s[k + |Hardcore|..]);
  }

  /** The first position at or before `j` where an occurrence starts. */
  lemma FirstOccurrence(s: string, j: nat) returns (k: nat)
    requires HardcoreAt(s, j)
    ensures k <= j && HardcoreAt(s, k)
    ensures forall i :: 0 <= i < k ==> !HardcoreAt(s, i)
  {
    k := j;
    while k > 0 && exists i :: 0 <= i < k && HardcoreAt(s, i)
      invariant k <= j && HardcoreAt(s, k)
      decreases k
    {
      var i :| 0 <= i < k && HardcoreAt(s, i);
      k := i;
    }
  }

  /** Shortening a league name twice is the same as shortening it once. */
  lemma ShortLeagueNameIdempotent(s: string)
    ensures ShortLeagueName(ShortLeagueName(s)) == ShortLeagueName(s)
  {
    NoHardcoreLeft(s);
    NoHardcoreUnchanged(ShortLeagueName(s));
  }

  /** Examples: the match ignores case and every occurrence is replaced. */
  lemma ShortLeagueNameExamples()
    ensures ShortLeagueName("Hardcore") == "HC"
    ensures ShortLeagueName("SSF hardcore") == "SSF HC"
  {
    assert HardcoreAt("Hardcore", 0);
    var s := "SSF hardcore";
    assert HardcoreAt(s[4..], 0);
    forall i | 0 <= i < 4 ensures !HardcoreAt(s, i) {
      assert s[i..i + |Hardcore|][0] == s[i];
    }
    CopiesPrefix(s, 4);
    assert s[4..][8..] == "";
  }

  // ---------------------------------------------------------------------------
  // Character listing
  // ---------------------------------------------------------------------------

  /** One character of an account, as the character-window service lists it. */
  datatype Account = Account(name: string, league: string, characterClass: string, level: int)

  /** One numbered line of the listing; the league is shown shortened. */
  datatype Row = Row(number: int, name: string, league: string, characterClass: string, level: int)

  /** What the listing command answers. */
  datatype Listing =
    | NoReply                 // page argument below 1
    | MissingAccountName      // blank account name
    | AccountNotFound         // the account could not be fetched or read
    | NoCharacters            // nothing left after the league filter
    | Table(rows: seq<Row>)   // the requested page

  const PageSize: nat := 9

  /** The characters of `chars` that play in `league` (ordinal comparison), in order. */
  function KeepLeague(chars: seq<Account>, league: string): (r: seq<Account>)
    ensures |r| <= |chars|
    ensures forall a :: a in r <==> a in chars && a.league == league
  {
    if |chars| == 0 then []
    else if chars[0].league == league then [chars[0]] + KeepLeague(chars[1..], league)
    else KeepLeague(chars[1..], league)
  }

  /** The filter works piecewise, so it keeps the relative order of the characters. */
  lemma {:induction false} KeepLeagueAppend(a: seq<Account>, b: seq<Account>, league: string)
    ensures KeepLeague(a + b, league) == KeepLeague(a, league) + KeepLeague(b, league)
  {
    if |a| > 0 {
      assert (a + b)[1..] == a[1..] + b;
      KeepLeagueAppend(a[1..], b, league);
    } else {
      assert a + b == b;
    }
  }

  /** `characters.RemoveAll(c => c.League != league)`, one character at a time. */
  method RemoveOtherLeagues(chars: seq<Account>, league: string) returns (kept: seq<Account>)
    ensures kept == KeepLeague(chars, league)
  {
    kept := [];
    var i := 0;
    while i < |chars|
      invariant 0 <= i <= |chars|
      invariant kept == KeepLeague(chars[..i], league)
    {
      KeepLeagueAppend(chars[..i], [chars[i]], league);
      assert chars[..i + 1] == chars[..i] + [chars[i]];
      if chars[i].league == league {
        kept := kept + [chars[i]];
      }
      i := i + 1;
    }
    assert chars[..i] == chars;
  }

  /** `curPage * 9` in unchecked `int` arithmetic: the number of characters the page skips. */
  function SkipCount(curPage: Int32): Int32 {
    Wrap32(PageSize * curPage)
  }

  /** `Skip(skip).Take(9)`: a negative count skips nothing. */
  function PageSlice(chars: seq<Account>, skip: int): (r: seq<Account>)
    ensures |r| == Min(PageSize, Max(0, |chars| - Max(0, skip)))
    ensures forall i :: 0 <= i < |r| ==> r[i] == chars[Max(0, skip) + i]
  {
    var start := Min(Max(0, skip), |chars|);
    chars[start..Min(start + PageSize, |chars|)]
  }

  function RowOf(number: int, a: Account): Row {
    Row(number, a.name, ShortLeagueName(a.league), a.characterClass, a.level)
  }

  /**
   * The lines of page `curPage` (0-based): the characters from position
   * `curPage * 9` on, numbered `i + 1 + curPage * 9`, all in `int` arithmetic.
   */
  method RenderPage(chars: seq<Account>, curPage: Int32) returns (rows: seq<Row>)
    ensures |rows| == Min(PageSize, Max(0, |chars| - Max(0, SkipCount(curPage))))
    ensures forall i :: 0 <= i < |rows| ==>
      rows[i] == RowOf(Wrap32(i + 1 + SkipCount(curPage)), chars[Max(0, SkipCount(curPage)) + i])
  {
    var tempList := PageSlice(chars, SkipCount(curPage));
    rows := [];
    for i := 0 to |tempList|
      invariant |rows| == i
      invariant forall k :: 0 <= k < i ==> rows[k] == RowOf(Wrap32(k + 1 + SkipCount(curPage)), tempList[k])
    {
      var character := tempList[i];
      rows := rows + [RowOf(Wrap32(i + 1 + SkipCount(curPage)), character)];
    }
  }

  /**
   * Every character of a list (whose count is an `int`) appears on exactly one
   * page, under its 1-based position in the list.
   */
  lemma CharacterOnItsPage(chars: seq<Account>, j: nat)
    requires j < |chars| <= IntMax
    ensures var curPage := j / PageSize;
      var page := PageSlice(chars, SkipCount(curPage));
      && j % PageSize < |page| && page[j % PageSize] == chars[j]
      && Wrap32(j % PageSize + 1 + SkipCount(curPage)) == j + 1
  {
  }

  /** Up to page 238609294 nothing wraps: the page skips `9 * (page - 1)` and numbers on from there. */
  lemma OrdinaryPageNumbering(page: Int32, i: nat)
    requires 1 <= page <= 238609294 && i < PageSize
    ensures Wrap32(page - 1) == page - 1
    ensures SkipCount(page - 1) == PageSize * (page - 1)
    ensures Wrap32(i + 1 + SkipCount(page - 1)) == PageSize * (page - 1) + i + 1
  {
  }

  /**
   * Page 238609296 skips `Wrap32(238609295 * 9) = -2147483641` characters, that
   * is none: it shows the first characters again, numbered from -2147483640.
   */
  lemma WrappedPageRestartsAtFront(chars: seq<Account>)
    ensures SkipCount(Wrap32(238609296 - 1)) == -2147483641
    ensures PageSlice(chars, SkipCount(238609295)) == chars[..Min(PageSize, |chars|)]
    ensures Wrap32(1 + SkipCount(238609295)) == -2147483640
  {
  }

  /** Only pages 0 down to -2147483647 give no reply: `--page` turns `int.MinValue` into `int.MaxValue`. */
  lemma NoReplyPages(page: Int32)
    ensures Wrap32(page - 1) < 0 <==> IntMin < page <= 0
    ensures page == IntMin ==> Wrap32(page - 1) == IntMax
  {
  }

  /**
   * `PathOfExile(usr, league, page)`: `fetched` is the account's character list
   * as read from the character-window service, or `None` when the request or
   * the reading failed. `page` is the 1-based page the user asked for; it is
   * decremented in `int` arithmetic.
   */
  method ListCharacters(usr: string, league: string, page: Int32, fetched: Option<seq<Account>>)
    returns (reply: Listing)
    ensures Wrap32(page - 1) < 0 ==> reply == NoReply
    ensures Wrap32(page - 1) >= 0 && IsBlank(usr) ==> reply == MissingAccountName
    ensures Wrap32(page - 1) >= 0 && !IsBlank(usr) && fetched.None? ==> reply == AccountNotFound
    ensures Wrap32(page - 1) >= 0 && !IsBlank(usr) && fetched.Some? ==>
      var kept := if IsBlank(league) then fetched.value else KeepLeague(fetched.value, league);
      var skip := SkipCount(Wrap32(page - 1));
      && (|kept| == 0 <==> reply == NoCharacters)
      && (|kept| > 0 ==>
            && reply.Table?
            && |reply.rows| == Min(PageSize, Max(0, |kept| - Max(0, skip)))
            && forall i :: 0 <= i < |reply.rows| ==>
                 reply.rows[i] == RowOf(Wrap32(i + 1 + skip), kept[Max(0, skip) + i]))
  {
    var curPage := Wrap32(page - 1);
    if curPage < 0 {
      return NoReply;
    }
    if IsBlank(usr) {
      return MissingAccountName;
    }
    if fetched.None? {
      return AccountNotFound;
    }
    var characters := fetched.value;
    if !IsBlank(league) {
      characters := RemoveOtherLeagues(characters, league);
    }
    if |characters| == 0 {
      return NoCharacters;
    }
    var rows := RenderPage(characters, curPage);
    reply := Table(rows);
  }

  // ---------------------------------------------------------------------------
  // Currency exchange request
  // ---------------------------------------------------------------------------

  datatype CurrencyRequestError = MissingLeagueName | MissingCurrencyName | UnknownCurrency(name: string)

  /**
   * The part of `PathOfExileCurrency` before the price lookup: both names must
   * be present, and both currency names are resolved; an unknown name raises.
   */
  function CurrencyRequest(leagueName: string, currencyName: string, convertName: string)
    : (r: Result<(string, string), CurrencyRequestError>)
    ensures IsBlank(leagueName) ==> r == Err(MissingLeagueName)
    ensures !IsBlank(leagueName) && IsBlank(currencyName) ==> r == Err(MissingCurrencyName)
    ensures r.Ok? ==> IsCurrencyValue(r.value.0) && IsCurrencyValue(r.value.1)
    ensures r.Ok? ==> ShortCurrencyName(currencyName) == Ok(r.value.0)
                      && ShortCurrencyName(convertName) == Ok(r.value.1)
    ensures !IsBlank(leagueName) && !IsBlank(currencyName) ==>
      (r.Ok? <==> ShortCurrencyName(currencyName).Ok? && ShortCurrencyName(convertName).Ok?)
    ensures !IsBlank(leagueName) && !IsBlank(currencyName) && r.Err? ==>
      r.error.UnknownCurrency? && ShortCurrencyName(r.error.name).Err?
    ensures r.Err? && r.error.UnknownCurrency? ==>
      r.error.name == if ShortCurrencyName(currencyName).Err? then currencyName else convertName
  {
    if IsBlank(leagueName) then Err(MissingLeagueName)
    else if IsBlank(currencyName) then Err(MissingCurrencyName)
    else match ShortCurrencyName(currencyName)
      case Err(_) => Err(UnknownCurrency(currencyName))
      case Ok(cleanCurrency) =>
        match ShortCurrencyName(convertName)
        case Err(_) => Err(UnknownCurrency(convertName))
        case Ok(cleanConvert) => Ok((cleanCurrency, cleanConvert))
  }
}
