/**
  The nearby-places tool (`components/tools/FindNearby.tsx`): the formatter that turns the place
  search's markdown-ish answer into numbered list items and paragraphs, the search handler that
  adds the 5 km radius when a location is known, and the location detection status.

  The place search (`findNearbyPlaces`) and the geolocation API are collaborators whose outcomes
  are parameters.
*/
module FindNearby {
  import opened Wrappers
  import opened Text
  import opened ChatHistory

  // ---------------------------------------------------------------------------------------------
  // Line classification and cleaning
  // ---------------------------------------------------------------------------------------------

  /** The number of digits at the start of `s`. */
  function LeadingDigits(s: string): (n: nat)
    ensures n <= |s|
    ensures forall i :: 0 <= i < n ==> IsDigit(s[i])
    ensures n < |s| ==> !IsDigit(s[n])
  {
    if s != [] && IsDigit(s[0]) then 1 + LeadingDigits(s[1..]) else 0
  }

  /** The unanchored regular-expression branch `\d+\.`: a digit immediately followed by a dot, anywhere. */
  predicate HasDigitDot(s: string) {
    exists i :: 0 <= i < |s| && DigitDotAt(s, i)
  }

  predicate DigitDotAt(s: string, i: int) {
    0 <= i < |s| - 1 && IsDigit(s[i]) && s[i + 1] == '.'
  }

  predicate StartsWithBullet(s: string) {
    |s| > 0 && (s[0] == '*' || s[0] == '-')
  }

  /** `s` starts with one or more digits followed by a dot. */
  predicate StartsWithNumber(s: string) {
    0 < LeadingDigits(s) < |s| && s[LeadingDigits(s)] == '.'
  }

  // The list-item regular expression as written: its start anchor binds to the bullet alternative
  // only, so a digit followed by a dot anywhere in the trimmed line makes it a list item.
  predicate IsListItemAsWritten(line: string) {
    StartsWithBullet(Trim(line)) || HasDigitDot(Trim(line))
  }

  /** The classification the comment above it describes: the line starts with `*`, `-` or `N.`. */
  predicate IsListItem(line: string) {
    StartsWithBullet(Trim(line)) || StartsWithNumber(Trim(line))
  }

  /** A bold marker "**" starts at index `i`. */
  predicate BoldAt(s: string, i: int) {
    0 <= i < |s| - 1 && s[i] == '*' && s[i + 1] == '*'
  }

  /** No two consecutive asterisks. */
  predicate NoBold(s: string) {
    forall i :: 0 <= i < |s| ==> !BoldAt(s, i)
  }

  // The global replacement of "**" by nothing: every pair removed, left to right, without overlap.
  function RemoveBold(s: string): (r: string)
    ensures |r| <= |s|
    ensures s != [] && !(|s| >= 2 && s[0] == '*' && s[1] == '*') ==> r != [] && r[0] == s[0]
    ensures NoBold(r)
  {
    if |s| >= 2 && s[0] == '*' && s[1] == '*' then RemoveBold(s[2..])
    else if s == [] then []
    else
      var rest := RemoveBold(s[1..]);
      var r := [s[0]] + rest;
      assert NoBold(r) by {
        forall i | 0 <= i < |r|
          ensures !BoldAt(r, i)
        {
          if i > 0 {
            assert !BoldAt(rest, i - 1);
          }
        }
      }
      r
  }

  // The anchored replacement of a bullet: a leading `*` or `-` and the white space after it.
  function StripBullet(s: string): (r: string)
    ensures |r| <= |s| && r == s[|s| - |r|..]
    ensures !StartsWithBullet(s) ==> r == s
    ensures StartsWithBullet(s) ==> |r| < |s| && IsBlank(s[1..|s| - |r|]) && (r != [] ==> !IsSpace(r[0]))
  {
    if StartsWithBullet(s) then
      var r := TrimStart(s[1..]);
      BlankAfterMarker(s, 1, r);
      r
    else s
  }

  // The anchored replacement of a number: leading digits, their dot and the white space after it.
  function StripNumber(s: string): (r: string)
    ensures |r| <= |s| && r == s[|s| - |r|..]
    ensures !StartsWithNumber(s) ==> r == s
    ensures StartsWithNumber(s) ==>
      && |r| < |s| - LeadingDigits(s)
      && IsBlank(s[LeadingDigits(s) + 1..|s| - |r|])
      && (r != [] ==> !IsSpace(r[0]))
  {
    var n := LeadingDigits(s);
    if 0 < n < |s| && s[n] == '.' then
      var r := TrimStart(s[n + 1..]);
      BlankAfterMarker(s, n + 1, r);
      r
    else s
  }

  /** What trimming the start of the text after a marker of length `k` drops is white space only. */
  lemma BlankAfterMarker(s: string, k: nat, r: string)
    requires k <= |s| && r == TrimStart(s[k..])
    ensures |r| <= |s| - k && r == s[|s| - |r|..] && IsBlank(s[k..|s| - |r|])
  {
    var u := s[k..];
    var n := LeadingSpace(u);
    assert r == u[n..] == s[k + n..];
    var v := s[k..k + n];
    forall i | 0 <= i < n
      ensures IsSpace(v[i])
    {
      assert v[i] == u[i];
    }
  }


  lemma NoBoldSlice(s: string, a: nat, b: nat)
    requires NoBold(s) && a <= b <= |s|
    ensures NoBold(s[a..b])
  {
    var t := s[a..b];
    forall i | 0 <= i < |t|
      ensures !BoldAt(t, i)
    {
      if i < |t| - 1 {
        assert t[i] == s[a + i] && t[i + 1] == s[a + i + 1];
        assert !BoldAt(s, a + i);
      }
    }
  }

  /** Removing a prefix or a suffix cannot create a bold marker. */
  lemma NoBoldSuffix(s: string, r: string)
    requires NoBold(s) && |r| <= |s| && r == s[|s| - |r|..]
    ensures NoBold(r)
  {
    var d := |s| - |r|;
    forall i | 0 <= i < |r|
      ensures !BoldAt(r, i)
    {
      assert !BoldAt(s, d + i);
    }
  }

  lemma NoBoldPrefix(s: string, r: string)
    requires NoBold(s) && |r| <= |s| && r == s[..|r|]
    ensures NoBold(r)
  {
    forall i | 0 <= i < |r|
      ensures !BoldAt(r, i)
    {
      assert !BoldAt(s, i);
    }
  }

  /** No bold marker, and no white space at either end. */
  predicate Tidy(text: string) {
    NoBold(text) && (text != [] ==> !IsSpace(text[0]) && !IsSpace(text[|text| - 1]))
  }

  /** Trimming cannot create a bold marker. */
  lemma NoBoldTrim(s: string)
    requires NoBold(s)
    ensures Tidy(Trim(s))
  {
    var a := LeadingSpace(s);
    NoBoldSlice(s, a, a + |Trim(s)|);
  }

  /**
    The cleaned text of a line: bold markers removed, one list marker of each kind stripped, and
    trimmed. It holds no bold marker and neither starts nor ends with white space.
  */
  function Clean(line: string): (r: string)
    ensures Tidy(r)
  {
    var s0 := RemoveBold(line);
    var s1 := StripBullet(s0);
    var s2 := StripNumber(s1);
    CleanIsTidy(s0, s1, s2);
    Trim(s2)
  }

  lemma CleanIsTidy(s0: string, s1: string, s2: string)
    requires NoBold(s0)
    requires |s1| <= |s0| && s1 == s0[|s0| - |s1|..]
    requires |s2| <= |s1| && s2 == s1[|s1| - |s2|..]
    ensures Tidy(Trim(s2))
  {
    NoBoldSuffix(s0, s1);
    NoBoldSuffix(s1, s2);
    NoBoldTrim(s2);
  }

  /** Anchored, a list item starts with a marker; as written it need not. */
  lemma ListItemStartsWithMarker(line: string)
    requires IsListItem(line)
    ensures var t := Trim(line); t[0] == '*' || t[0] == '-' || IsDigit(t[0])
  {
  }

  /** Every line the anchored test accepts is also accepted as written. */
  lemma AnchoredWithinAsWritten(line: string)
    requires IsListItem(line)
    ensures IsListItemAsWritten(line)
  {
    var t := Trim(line);
    if !StartsWithBullet(t) {
      var n := LeadingDigits(t);
      assert DigitDotAt(t, n - 1);
    }
  }

  /** A string without asterisks has no bold marker to remove. */
  lemma {:induction false} RemoveBoldWithoutStars(s: string)
    requires '*' !in s
    ensures RemoveBold(s) == s
  {
    if s != [] {
      assert s[0] != '*';
      RemoveBoldWithoutStars(s[1..]);
    }
  }

  /** A string with no bold marker is left as it is, so removing bold markers twice is removing them once. */
  lemma {:induction false} RemoveBoldOfNoBold(s: string)
    requires NoBold(s)
    ensures RemoveBold(s) == s
  {
    if s != [] {
      assert !BoldAt(s, 0);
      NoBoldSuffix(s, s[1..]);
      RemoveBoldOfNoBold(s[1..]);
    }
  }

  /** Only asterisks go, two at a time: the other characters stay, in their order. */
  lemma {:induction false} RemoveBoldKeepsOthers(s: string)
    ensures RemoveChars(RemoveBold(s), {'*'}) == RemoveChars(s, {'*'})
  {
    var bad := {'*'};
    if |s| >= 2 && s[0] == '*' && s[1] == '*' {
      RemoveBoldKeepsOthers(s[2..]);
      assert s[1..][1..] == s[2..];
      assert RemoveChars(s, bad) == RemoveChars(s[1..], bad) == RemoveChars(s[2..], bad);
    } else if s != [] {
      RemoveBoldKeepsOthers(s[1..]);
      var rest := RemoveBold(s[1..]);
      var r := [s[0]] + rest;
      assert RemoveBold(s) == r;
      assert r[1..] == rest;
      var head := if s[0] in bad then [] else [s[0]];
      assert RemoveChars(r, bad) == head + RemoveChars(rest, bad);
      assert RemoveChars(s, bad) == head + RemoveChars(s[1..], bad);
    }
  }

  /** The characters removed come in pairs. */
  lemma {:induction false} RemoveBoldDropsPairs(s: string)
    ensures (|s| - |RemoveBold(s)|) % 2 == 0
  {
    if |s| >= 2 && s[0] == '*' && s[1] == '*' {
      RemoveBoldDropsPairs(s[2..]);
      var d := |s[2..]| - |RemoveBold(s[2..])|;
      assert |s| - |RemoveBold(s)| == d + 2;
    } else if s != [] {
      RemoveBoldDropsPairs(s[1..]);
      assert |RemoveBold(s)| == 1 + |RemoveBold(s[1..])|;
    }
  }

  /** `n` asterisks in a row. */
  function Stars(n: nat): (r: string)
    ensures |r| == n && forall i :: 0 <= i < n ==> r[i] == '*'
  {
    if n == 0 then [] else ['*'] + Stars(n - 1)
  }

  /** A run of asterisks loses its pairs: one asterisk is left when the run is odd, none when it is even. */
  lemma {:induction false} RemoveBoldStarRun(n: nat)
    ensures RemoveBold(Stars(n)) == Stars(n % 2)
  {
    if n >= 2 {
      assert Stars(n)[2..] == Stars(n - 2);
      RemoveBoldStarRun(n - 2);
    }
  }

  /**
    The removal works piece by piece when the first piece does not end with an asterisk, so a run of
    asterisks is never paired across the cut.
  */
  lemma {:induction false} RemoveBoldSplit(a: string, b: string)
    requires a == [] || a[|a| - 1] != '*'
    ensures RemoveBold(a + b) == RemoveBold(a) + RemoveBold(b)
  {
    if a != [] {
      var s := a + b;
      if |a| >= 2 && a[0] == '*' && a[1] == '*' {
        assert s[2..] == a[2..] + b;
        RemoveBoldSplit(a[2..], b);
        assert RemoveBold(s) == RemoveBold(a[2..] + b);
        assert RemoveBold(a) == RemoveBold(a[2..]);
      } else {
        assert s[0] == a[0];
        assert !(|s| >= 2 && s[0] == '*' && s[1] == '*');
        assert s[1..] == a[1..] + b;
        RemoveBoldSplit(a[1..], b);
        assert RemoveBold(s) == [a[0]] + RemoveBold(a[1..] + b);
        assert RemoveBold(a) == [a[0]] + RemoveBold(a[1..]);
      }
    } else {
      assert a + b == b;
    }
  }

  /** A line that is plain text, with no asterisk and no list marker, is kept as it is. */
  lemma CleanPlainLine(t: string)
    requires '*' !in t && (t != [] ==> !IsSpace(t[0]) && !IsSpace(t[|t| - 1]))
    requires !StartsWithBullet(t) && !StartsWithNumber(t)
    ensures Clean(t) == t
  {
    RemoveBoldWithoutStars(t);
    TrimOfTrimmed(t);
  }

  /** White space holds no asterisk. */
  lemma BlankHasNoStar(ws: string)
    requires IsBlank(ws)
    ensures '*' !in ws
  {
  }

  /**
    A bulleted line keeps only its text: the bullet (`*` or `-`) and the white space after it go,
    whatever that white space is.
  */
  lemma CleanBulletedLine(bullet: char, ws: string, t: string)
    requires bullet == '*' || bullet == '-'
    requires IsBlank(ws)
    requires '*' !in t && (t != [] ==> !IsSpace(t[0]) && !IsSpace(t[|t| - 1]))
    requires !StartsWithNumber(t)
    ensures Clean([bullet] + ws + t) == t
  {
    var s := [bullet] + ws + t;
    BlankHasNoStar(ws);
    assert s == [bullet] + (ws + t);
    BoldFreeAfterMarker(bullet, ws + t);
    TrimStartBlankPrefix(ws, t);
    assert StartsWithBullet(s) && s[1..] == ws + t;
    assert StripBullet(s) == t;
    TrimOfTrimmed(t);
    assert Clean(s) == Trim(StripNumber(StripBullet(RemoveBold(s))));
  }

  /** One character ahead of a string with no asterisk leaves the removal nothing to do. */
  lemma BoldFreeAfterMarker(c: char, rest: string)
    requires '*' !in rest
    ensures RemoveBold([c] + rest) == [c] + rest
  {
    var s := [c] + rest;
    RemoveBoldWithoutStars(rest);
    assert s[1..] == rest;
    if rest != [] {
      assert s[1] == rest[0] && rest[0] != '*';
    }
  }

  /** The digits of `d` then the rest: the count of leading digits runs to the first non-digit. */
  lemma {:induction false} LeadingDigitsOf(d: string, rest: string)
    requires forall i :: 0 <= i < |d| ==> IsDigit(d[i])
    requires rest != [] && !IsDigit(rest[0])
    ensures LeadingDigits(d + rest) == |d|
  {
    if d != [] {
      assert (d + rest)[1..] == d[1..] + rest;
      LeadingDigitsOf(d[1..], rest);
    }
  }

  /**
    A numbered line keeps only its text: the digits, their dot and the white space after it go,
    whatever the text then starts with.
  */
  lemma CleanNumberedLine(digits: string, ws: string, t: string)
    requires digits != [] && forall i :: 0 <= i < |digits| ==> IsDigit(digits[i])
    requires IsBlank(ws)
    requires '*' !in t && (t != [] ==> !IsSpace(t[0]) && !IsSpace(t[|t| - 1]))
    ensures Clean(digits + "." + ws + t) == t
  {
    var s := digits + "." + ws + t;
    assert s == digits + ("." + ws + t);
    LeadingDigitsOf(digits, "." + ws + t);
    BlankHasNoStar(ws);
    assert '*' !in digits;
    assert '*' !in s;
    RemoveBoldWithoutStars(s);
    assert !StartsWithBullet(s) && StartsWithNumber(s);
    assert s[|digits| + 1..] == ws + t;
    TrimStartBlankPrefix(ws, t);
    TrimOfTrimmed(t);
  }

  /**
    A line that is plain text with a decimal number in it is numbered as a list item by the test as
    written, and kept whole by the cleaning; the anchored test makes it a paragraph.
  */
  lemma DecimalMakesListItem(line: string, i: nat)
    requires '*' !in line && line != [] && !IsSpace(line[0]) && !IsSpace(line[|line| - 1])
    requires line[0] != '-' && !IsDigit(line[0])
    requires DigitDotAt(line, i)
    ensures IsListItemAsWritten(line) && !IsListItem(line)
    ensures Clean(line) == line
  {
    TrimOfTrimmed(line);
    RemoveBoldWithoutStars(line);
    assert !StartsWithNumber(line);
  }

  /** For instance "Rated 4.5 stars". */
  lemma RatedStarsIsListItem()
    ensures IsListItemAsWritten("Rated 4.5 stars") && !IsListItem("Rated 4.5 stars")
  {
    var s := "Rated 4.5 stars";
    assert s[6] == '4' && s[7] == '.';
    DecimalMakesListItem(s, 6);
  }

  // ---------------------------------------------------------------------------------------------
  // Formatting
  // ---------------------------------------------------------------------------------------------

  /** What one line becomes: nothing, a numbered list item, or a paragraph. */
  datatype Slot = Skipped | Item(number: nat, text: string) | Paragraph(text: string)

  /**
    What `line` becomes when `before` list items have been shown above it; `clean` is the text
    cleaning and `isItem` the list-item test.
  */
  function SlotFor(line: string, before: nat, clean: string -> string, isItem: string -> bool): Slot {
    var text := clean(line);
    if text == [] then Skipped
    else if isItem(line) then Item(before + 1, text)
    else Paragraph(text)
  }

  /** The number of lines that are shown as list items. */
  function CountItems(lines: seq<string>, clean: string -> string, isItem: string -> bool): nat {
    if lines == [] then 0
    else
      var last := lines[|lines| - 1];
      CountItems(lines[..|lines| - 1], clean, isItem) + (if clean(last) != [] && isItem(last) then 1 else 0)
  }

  /** The slots of `lines`, line by line. */
  function FormatLines(lines: seq<string>, clean: string -> string, isItem: string -> bool): (r: seq<Slot>)
    ensures |r| == |lines|
  {
    if lines == [] then []
    else
      var init := lines[..|lines| - 1];
      FormatLines(init, clean, isItem) + [SlotFor(lines[|lines| - 1], CountItems(init, clean, isItem), clean, isItem)]
  }

  /**
    `formatNearbyResults`: one slot per `'\n'`-separated line of the answer, cleaned by `Clean`.
    `isItem` is the list-item test (`IsListItemAsWritten` for the component as written).
  */
  method FormatNearbyResults(text: string, isItem: string -> bool) returns (slots: seq<Slot>)
    ensures slots == FormatLines(Split(text, '\n'), Clean, isItem)
    ensures |slots| == multiset(text)['\n'] + 1
  {
    var lines := Split(text, '\n');
    slots := FormatEachLine(lines, Clean, isItem);
  }

  /** The mapping over the lines, with the counter `listCounter` advanced for each list item shown. */
  method FormatEachLine(lines: seq<string>, clean: string -> string, isItem: string -> bool) returns (slots: seq<Slot>)
    ensures slots == FormatLines(lines, clean, isItem)
  {
    var listCounter := 0;
    slots := [];
    for i := 0 to |lines|
      invariant listCounter == CountItems(lines[..i], clean, isItem)
      invariant slots == FormatLines(lines[..i], clean, isItem)
    {
      assert lines[..i + 1][..i] == lines[..i];
      var line := lines[i];
      var cleaned := clean(line);
      if cleaned == [] {
        slots := slots + [Skipped];
      } else if isItem(line) {
        listCounter := listCounter + 1;
        slots := slots + [Item(listCounter, cleaned)];
      } else {
        slots := slots + [Paragraph(cleaned)];
      }
    }
    assert lines[..|lines|] == lines;
  }

  /**
    Line `i` alone decides its slot: skipped exactly when its cleaned text is empty, otherwise a
    list item numbered after the list items above it, or a paragraph, carrying the cleaned text.
  */
  lemma {:induction false} SlotOfLine(lines: seq<string>, clean: string -> string, isItem: string -> bool, i: nat)
    requires i < |lines|
    ensures var slot := FormatLines(lines, clean, isItem)[i];
      && (slot == Skipped <==> clean(lines[i]) == [])
      && (slot.Item? <==> clean(lines[i]) != [] && isItem(lines[i]))
      && (slot.Item? ==> slot == Item(CountItems(lines[..i], clean, isItem) + 1, clean(lines[i])))
      && (slot.Paragraph? ==> slot.text == clean(lines[i]))
  {
    var init := lines[..|lines| - 1];
    if i < |init| {
      SlotOfLine(init, clean, isItem, i);
      assert init[..i] == lines[..i];
    }
  }

  /** A property every cleaned line has is shared by every text shown. */
  lemma ShownTextsShare(lines: seq<string>, clean: string -> string, isItem: string -> bool, i: nat, ok: string -> bool)
    requires i < |lines| && ok(clean(lines[i]))
    ensures var slot := FormatLines(lines, clean, isItem)[i];
      !slot.Skipped? ==> slot.text != [] && ok(slot.text)
  {
    SlotOfLine(lines, clean, isItem, i);
  }

  /** No text shown holds a bold marker or starts or ends with white space. */
  lemma ShownTextIsClean(lines: seq<string>, isItem: string -> bool, i: nat)
    requires i < |lines|
    ensures var slot := FormatLines(lines, Clean, isItem)[i];
      !slot.Skipped? ==> slot.text != [] && Tidy(slot.text)
  {
    ShownTextsShare(lines, Clean, isItem, i, Tidy);
  }

  /** The numbers of the list items, in order. */
  function ItemNumbers(slots: seq<Slot>): seq<nat> {
    if slots == [] then []
    else
      var last := slots[|slots| - 1];
      ItemNumbers(slots[..|slots| - 1]) + (if last.Item? then [last.number] else [])
  }

  /** `[1, 2, …, n]`. */
  function OneTo(n: nat): (r: seq<nat>)
    ensures |r| == n && forall i :: 0 <= i < n ==> r[i] == i + 1
  {
    seq(n, i requires 0 <= i < n => i + 1)
  }

  /** The list items are numbered 1, 2, 3, … consecutively in the order of the lines. */
  lemma {:induction false} ItemsNumberedConsecutively(lines: seq<string>, clean: string -> string, isItem: string -> bool)
    ensures ItemNumbers(FormatLines(lines, clean, isItem)) == OneTo(CountItems(lines, clean, isItem))
  {
    if lines != [] {
      var init := lines[..|lines| - 1];
      ItemsNumberedConsecutively(init, clean, isItem);
      var r := FormatLines(lines, clean, isItem);
      assert r[..|r| - 1] == FormatLines(init, clean, isItem);
    }
  }

  // ---------------------------------------------------------------------------------------------
  // Searching
  // ---------------------------------------------------------------------------------------------

  datatype Location = Location(lat: real, lng: real)

  datatype LocationStatus = Idle | Locating | Found | Error

  /** The place search's answer: text and the grounding metadata carried through. */
  datatype PlaceResult = PlaceResult(text: string, grounding: Grounding)

  datatype SearchOutcome = SearchThrew | SearchReturned(result: PlaceResult)

  const RadiusSuffix := " within 5km"

  /** The quick category buttons' queries. */
  const CategoryQueries := ["hospitals nearby", "pharmacies nearby", "medical clinics nearby"]

  /** The query sent: the radius is appended exactly when a location is known; the text itself is kept. */
  function FinalQuery(searchQuery: string, location: Option<Location>): (r: string)
    ensures location.None? ==> r == searchQuery
    ensures location.Some? ==> |r| == |searchQuery| + |RadiusSuffix| && r[|searchQuery|..] == RadiusSuffix
    ensures r[..|searchQuery|] == searchQuery
  {
    if location.Some? then searchQuery + RadiusSuffix else searchQuery
  }

  class Search {
    var query: string
    var isLoading: bool
    var results: Option<PlaceResult>
    var location: Option<Location>
    var locationStatus: LocationStatus
    /** The `findNearbyPlaces` calls, in order: the query sent and the location passed. */
    var requests: seq<(string, Option<Location>)>
    /** How many times the position was requested from the geolocation API. */
    var positionRequests: nat

    constructor()
      ensures query == "" && !isLoading && results.None? && location.None?
      ensures locationStatus == Idle && requests == [] && positionRequests == 0
    {
      query, isLoading, results, location := "", false, None, None;
      locationStatus, requests, positionRequests := Idle, [], 0;
    }

    /** The search button is enabled when nothing is loading and the query is not blank. */
    predicate CanSearch()
      reads this
    {
      !isLoading && !IsBlank(query)
    }

    /** `detectLocation`: without a geolocation API the status is `error` and nothing is requested. */
    method DetectLocation(hasGeolocation: bool)
      modifies this
      ensures !hasGeolocation ==> locationStatus == Error && positionRequests == old(positionRequests)
      ensures hasGeolocation ==> locationStatus == Locating && positionRequests == old(positionRequests) + 1
      ensures location == old(location) && query == old(query) && isLoading == old(isLoading)
      ensures results == old(results) && requests == old(requests)
    {
      if !hasGeolocation {
        locationStatus := Error;
        return;
      }
      locationStatus := Locating;
      positionRequests := positionRequests + 1;
    }

    /** The position callback. */
    method OnPosition(at: Location)
      modifies this
      ensures location == Some(at) && locationStatus == Found
      ensures query == old(query) && isLoading == old(isLoading) && results == old(results)
      ensures requests == old(requests) && positionRequests == old(positionRequests)
    {
      location := Some(at);
      locationStatus := Found;
    }

    /** The error callback: the location stays unknown and searches are general. */
    method OnPositionError()
      modifies this
      ensures locationStatus == Error
      ensures location == old(location) && query == old(query) && isLoading == old(isLoading)
      ensures results == old(results) && requests == old(requests) && positionRequests == old(positionRequests)
    {
      locationStatus := Error;
    }

    /**
      `handleSearch`: a blank query does nothing. Otherwise exactly one search is sent, with the
      radius appended when a location is known. When the search throws there is no handler, so the
      results stay cleared and loading stays on.
    */
    method HandleSearch(searchQuery: string, outcome: SearchOutcome)
      modifies this
      ensures IsBlank(searchQuery) ==>
        && requests == old(requests) && isLoading == old(isLoading) && results == old(results)
      ensures !IsBlank(searchQuery) ==>
        && requests == old(requests) + [(FinalQuery(searchQuery, old(location)), old(location))]
        && (outcome.SearchReturned? ==> results == Some(outcome.result) && !isLoading)
        && (outcome.SearchThrew? ==> results.None? && isLoading)
      ensures query == old(query) && location == old(location) && locationStatus == old(locationStatus)
      ensures positionRequests == old(positionRequests)
    {
      if IsBlank(searchQuery) {
        return;
      }
      isLoading := true;
      results := None;
      var finalQuery := searchQuery;
      if location.Some? {
        finalQuery := searchQuery + RadiusSuffix;
      }
      requests := requests + [(finalQuery, location)];
      if outcome.SearchThrew? {
        return;
      }
      results := Some(outcome.result);
      isLoading := false;
    }

    /** A quick category button: the query box shows the category's query and it is searched. */
    method SearchCategory(i: nat, outcome: SearchOutcome)
      requires i < |CategoryQueries|
      modifies this
      ensures query == CategoryQueries[i]
      ensures requests == old(requests) + [(FinalQuery(CategoryQueries[i], old(location)), old(location))]
      ensures outcome.SearchReturned? ==> results == Some(outcome.result) && !isLoading
      ensures outcome.SearchThrew? ==> results.None? && isLoading
      ensures location == old(location) && locationStatus == old(locationStatus)
      ensures positionRequests == old(positionRequests)
    {
      query := CategoryQueries[i];
      assert !IsBlank(CategoryQueries[i]) by {
        assert !IsSpace(CategoryQueries[i][0]);
      }
      HandleSearch(CategoryQueries[i], outcome);
    }
  }
}
