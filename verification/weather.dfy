/** The weather label of a prediction request, as app.py normalises it: Python's
    str.title(), then a lookup in a seven-entry table of codes. Only ASCII letters
    are treated as cased letters. */
module Weather {
  import opened Json

  predicate IsUpper(c: char) { 'A' <= c <= 'Z' }
  predicate IsLower(c: char) { 'a' <= c <= 'z' }
  predicate IsCased(c: char) { IsUpper(c) || IsLower(c) }

  function ToUpper(c: char): char
  {
    if IsLower(c) then (c as int - 32) as char else c
  }

  function ToLower(c: char): char
  {
    if IsUpper(c) then (c as int + 32) as char else c
  }

  /** str.title() on the rest of a string, given whether the character before it
      was a cased letter: a letter after a cased letter is lowered, any other
      character is uppered. */
  function TitleFrom(s: string, afterCased: bool): (t: string)
    ensures |t| == |s|
  {
    if s == [] then []
    else [if afterCased then ToLower(s[0]) else ToUpper(s[0])] + TitleFrom(s[1..], IsCased(s[0]))
  }

  function Title(s: string): (t: string)
    ensures |t| == |s|
  {
    TitleFrom(s, false)
  }

  /** Two strings that differ at most in the case of their ASCII letters. */
  ghost predicate SameUpToCase(s: string, t: string)
  {
    |s| == |t| && forall i :: 0 <= i < |s| ==> ToLower(s[i]) == ToLower(t[i])
  }

  /** The table weather_dict of app.py. */
  const Codes: map<string, int> :=
    map["Clear" := 0, "Windy" := 1, "Snowy" := 2, "Rainy" := 3, "Cloudy" := 4, "Foggy" := 5, "Stormy" := 6]

  /** The value that takes the place of a string weather label: its code when the
      title-cased label is in the table, otherwise the title-cased label itself. */
  function NormaliseWeather(entry: string): (r: JsonValue)
    // never None, so the presence check that follows it never rejects the weather
    ensures r.Int? || r.Str?
    ensures r.Int? <==> Title(entry) in Codes
    ensures r.Int? ==> r.i == Codes[Title(entry)]
    ensures r.Str? ==> r.s == Title(entry)
  {
    var t := Title(entry);
    if t in Codes then Int(Codes[t]) else Str(t)
  }

  /** Character k of TitleFrom(s, b) depends only on s[k] and on whether the
      character before it (or b, at the start) is cased. */
  lemma {:induction false} TitleFromAt(s: string, b: bool, k: nat)
    requires k < |s|
    ensures TitleFrom(s, b)[k] ==
      if (if k == 0 then b else IsCased(s[k - 1])) then ToLower(s[k]) else ToUpper(s[k])
  {
    if k > 0 {
      TitleFromAt(s[1..], IsCased(s[0]), k - 1);
    }
  }

  /** The pointwise reading of str.title(): a character is lowered exactly when
      it follows a cased letter, and uppered otherwise. */
  lemma TitleAt(s: string, k: nat)
    requires k < |s|
    ensures Title(s)[k] == if k > 0 && IsCased(s[k - 1]) then ToLower(s[k]) else ToUpper(s[k])
  {
    TitleFromAt(s, false, k);
  }

  lemma CaseFolding(a: char, b: char)
    requires ToLower(a) == ToLower(b)
    ensures ToUpper(a) == ToUpper(b) && IsCased(a) == IsCased(b)
  {
  }

  /** title() sees through case: two labels that differ only in the case of
      their letters title-case to the same string. */
  lemma TitleIgnoresCase(s: string, t: string)
    requires SameUpToCase(s, t)
    ensures Title(s) == Title(t)
  {
    forall k | 0 <= k < |s|
      ensures Title(s)[k] == Title(t)[k]
    {
      TitleAt(s, k);
      TitleAt(t, k);
      CaseFolding(s[k], t[k]);
      if k > 0 {
        CaseFolding(s[k - 1], t[k - 1]);
      }
    }
  }

  /** title() changes nothing but the case of letters. */
  lemma TitleKeepsLetters(s: string)
    ensures SameUpToCase(s, Title(s))
  {
    forall k | 0 <= k < |s|
      ensures ToLower(s[k]) == ToLower(Title(s)[k])
    {
      TitleAt(s, k);
    }
  }

  /** Title-casing a title-cased string changes nothing. */
  lemma TitleIdempotent(s: string)
    ensures Title(Title(s)) == Title(s)
  {
    TitleKeepsLetters(s);
    TitleIgnoresCase(Title(s), s);
  }

  /** A capital followed by lower-case letters is already title-cased. */
  lemma CapitalisedWordIsTitled(s: string)
    requires |s| > 0 && IsUpper(s[0])
    requires forall i :: 1 <= i < |s| ==> IsLower(s[i])
    ensures Title(s) == s
  {
    forall k | 0 <= k < |s|
      ensures Title(s)[k] == s[k]
    {
      TitleAt(s, k);
    }
  }

  /** Every entry of the table is already title-cased. */
  lemma TableLabelsAreTitled(entry: string)
    requires entry in Codes
    ensures Title(entry) == entry
  {
    CapitalisedWordIsTitled(entry);
  }

  /** No two entries of the table share a code. */
  lemma CodesDistinct(a: string, b: string)
    requires a in Codes && b in Codes && Codes[a] == Codes[b]
    ensures a == b
  {
  }

  /** A label normalises to the code of a table entry exactly when it spells
      that entry in any mixture of upper and lower case. */
  lemma WeatherCodeIff(s: string, entry: string)
    requires entry in Codes
    ensures NormaliseWeather(s) == Int(Codes[entry]) <==> SameUpToCase(s, entry)
  {
    TableLabelsAreTitled(entry);
    if SameUpToCase(s, entry) {
      TitleIgnoresCase(s, entry);
    }
    if NormaliseWeather(s) == Int(Codes[entry]) {
      CodesDistinct(Title(s), entry);
      TitleKeepsLetters(s);
    }
  }

  /** A label that spells no table entry reaches the classifier as its
      title-cased string, not as a code. */
  lemma UnmappedLabelPassesThrough(s: string)
    ensures NormaliseWeather(s) == Str(Title(s)) <==>
      forall entry :: entry in Codes ==> !SameUpToCase(s, entry)
  {
    if Title(s) in Codes {
      WeatherCodeIff(s, Title(s));
    } else {
      forall entry | entry in Codes
        ensures !SameUpToCase(s, entry)
      {
        WeatherCodeIff(s, entry);
      }
    }
  }

  /** "rainy" becomes code 3; "sunny" stays the string "Sunny". */
  lemma RainyAndSunny()
    ensures NormaliseWeather("rainy") == Int(3)
    ensures NormaliseWeather("sunny") == Str("Sunny")
  {
    WeatherCodeIff("rainy", "Rainy");
    assert Title("sunny") == "Sunny" by {
      TitleAt("sunny", 0);
    }
  }
}
