// The mount's option string: layer directories joined for the kernel, topmost first.

module Escapes {
  import opened Strings

  /** Puts characters in front of the first part. */
  function OntoFirst(front: string, parts: seq<string>): seq<string>
    requires parts != []
  {
    [front + parts[0]] + parts[1..]
  }

  /** Splits at a separator that no backslash protects; the backslashes stay. */
  function SplitUnescaped(s: string, c: char): (parts: seq<string>)
    ensures parts != []
  {
    if s == "" then [""]
    else if s[0] == '\\' then (if |s| == 1 then [s] else OntoFirst(s[..2], SplitUnescaped(s[2..], c)))
    else if s[0] == c then [""] + SplitUnescaped(s[1..], c)
    else OntoFirst(s[..1], SplitUnescaped(s[1..], c))
  }

  /** A backslash goes away and the character behind it stands for itself. */
  function Unescape(s: string): string {
    if s == "" then ""
    else if s[0] == '\\' then (if |s| == 1 then "" else [s[1]] + Unescape(s[2..]))
    else [s[0]] + Unescape(s[1..])
  }

  function UnescapeAll(parts: seq<string>): (r: seq<string>)
    ensures |r| == |parts|
  {
    if parts == [] then [] else [Unescape(parts[0])] + UnescapeAll(parts[1..])
  }

  function Total(parts: seq<string>): nat { if parts == [] then 0 else |parts[0]| + Total(parts[1..]) }

  predicate Clear(s: string) { '\\' !in s }

  predicate AllClear(parts: seq<string>) { forall i :: 0 <= i < |parts| ==> Clear(parts[i]) }

  lemma JoinOnto(front: string, parts: seq<string>, c: char)
    requires parts != []
    ensures Join(OntoFirst(front, parts), c) == front + Join(parts, c)
  {
    assert OntoFirst(front, parts)[1..] == parts[1..];
    if |parts| > 1 {
      assert (front + parts[0]) + [c] + Join(parts[1..], c) == front + (parts[0] + [c] + Join(parts[1..], c));
    }
  }

  /** No character gets lost in splitting. */
  lemma {:induction false} JoinSplitUnescaped(s: string, c: char)
    ensures Join(SplitUnescaped(s, c), c) == s
  {
    if s != "" {
      if s[0] == '\\' {
        if |s| > 1 {
          JoinSplitUnescaped(s[2..], c);
          JoinOnto(s[..2], SplitUnescaped(s[2..], c), c);
        }
      } else if s[0] == c {
        JoinSplitUnescaped(s[1..], c);
        var rest := SplitUnescaped(s[1..], c);
        assert ([""] + rest)[1..] == rest;
        assert s == "" + [c] + s[1..];
      } else {
        JoinSplitUnescaped(s[1..], c);
        JoinOnto(s[..1], SplitUnescaped(s[1..], c), c);
      }
    }
  }

  lemma {:induction false} JoinLength(parts: seq<string>, c: char)
    requires parts != []
    ensures |Join(parts, c)| == Total(parts) + |parts| - 1
  {
    if |parts| > 1 {
      JoinLength(parts[1..], c);
    } else {
      assert parts[1..] == [];
    }
  }

  lemma {:induction false} JoinClear(parts: seq<string>, c: char)
    requires AllClear(parts) && c != '\\'
    ensures Clear(Join(parts, c))
  {
    if |parts| > 1 {
      JoinClear(parts[1..], c);
    }
  }

  /** Unescaping shortens a string exactly if it holds a backslash. */
  lemma {:induction false} UnescapeShortens(s: string)
    ensures |Unescape(s)| <= |s|
    ensures |Unescape(s)| == |s| <==> Clear(s)
  {
    if s != "" {
      if s[0] == '\\' {
        if |s| > 1 {
          UnescapeShortens(s[2..]);
        }
      } else {
        UnescapeShortens(s[1..]);
        assert s == [s[0]] + s[1..];
      }
    }
  }

  lemma {:induction false} UnescapeAllShortens(parts: seq<string>)
    ensures Total(UnescapeAll(parts)) <= Total(parts)
    ensures Total(UnescapeAll(parts)) == Total(parts) ==> AllClear(parts)
  {
    if parts != [] {
      UnescapeShortens(parts[0]);
      UnescapeAllShortens(parts[1..]);
      assert UnescapeAll(parts)[1..] == UnescapeAll(parts[1..]);
    }
  }

  lemma {:induction false} UnescapeClear(s: string)
    requires Clear(s)
    ensures Unescape(s) == s
  {
    if s != "" {
      UnescapeClear(s[1..]);
    }
  }

  lemma {:induction false} UnescapeAllClear(parts: seq<string>)
    requires AllClear(parts)
    ensures UnescapeAll(parts) == parts
  {
    if parts != [] {
      UnescapeClear(parts[0]);
      UnescapeAllClear(parts[1..]);
    }
  }

  lemma {:induction false} SplitClear(s: string, c: char)
    requires Clear(s)
    ensures SplitUnescaped(s, c) == Split(s, c)
  {
    if s != "" {
      SplitClear(s[1..], c);
      assert s[..1] == [s[0]];
    }
  }
}

module OverlayOptions {
  import opened Strings
  import opened Paths
  import opened Escapes

  function Reversed<T>(s: seq<T>): (r: seq<T>)
    ensures |r| == |s|
    ensures forall i :: 0 <= i < |s| ==> r[i] == s[|s| - 1 - i]
  {
    seq(|s|, i requires 0 <= i < |s| => s[|s| - 1 - i])
  }

  /** OverlayLowerDirs: an array filled from its end, then joined. */
  method OverlayLowerDirs(layers: seq<string>) returns (s: string)
    ensures s == Join(Reversed(layers), ':')
  {
    var n := |layers|;
    var r := new string[n](_ => "");
    for k := 0 to n
      invariant forall j :: 0 <= j < k ==> r[n - 1 - j] == layers[j]
    {
      r[n - 1 - k] := layers[k];
    }
    forall i | 0 <= i < n
      ensures r[i] == layers[n - 1 - i]
    {
      assert r[n - 1 - (n - 1 - i)] == layers[n - 1 - i];
    }
    assert r[..] == Reversed(layers);
    s := Join(r[..], ':');
  }

  const LOWER := "lowerdir="
  const UPPER := "upperdir="
  const WORK := "workdir="

  function Options(lowerDirs: string, upper: string, work: string): string {
    LOWER + lowerDirs + "," + UPPER + upper + "," + WORK + work
  }

  datatype Mounting = NoLayers | Mount(options: string, target: string)

  /** MountOverlay, up to the system call. */
  function MountOverlay(lowerDirs: string, containerDir: string): Mounting
    requires containerDir != ""
  {
    if lowerDirs == "" then NoLayers
    else
      Mount(Options(lowerDirs, JoinPath(containerDir, "upper"), JoinPath(containerDir, "work")),
            JoinPath(containerDir, "merged"))
  }

  datatype Understood = Invalid | Overlay(lowers: seq<string>, upper: string, work: string)

  /** Options at commas, lower directories at colons, and nothing else special. */
  function PlainParse(options: string): Understood {
    var parts := Split(options, ',');
    if |parts| == 3 && HasPrefix(parts[0], LOWER) && HasPrefix(parts[1], UPPER) && HasPrefix(parts[2], WORK) then
      Overlay(Split(TrimPrefix(parts[0], LOWER), ':'), TrimPrefix(parts[1], UPPER), TrimPrefix(parts[2], WORK))
    else Invalid
  }

  /** How OverlayFS reads the string: a backslash protects the character behind it. */
  function Parse(options: string): Understood {
    var parts := SplitUnescaped(options, ',');
    if |parts| == 3 && HasPrefix(parts[0], LOWER) && HasPrefix(parts[1], UPPER) && HasPrefix(parts[2], WORK) then
      Overlay(UnescapeAll(SplitUnescaped(TrimPrefix(parts[0], LOWER), ':')),
              Unescape(TrimPrefix(parts[1], UPPER)), Unescape(TrimPrefix(parts[2], WORK)))
    else Invalid
  }

  lemma SplitThree(a: string, b: string, c: string)
    requires ',' !in a && ',' !in b && ',' !in c
    ensures Split(a + "," + b + "," + c, ',') == [a, b, c]
  {
    SplitConcat(a + "," + b, c, ',');
    SplitConcat(a, b, ',');
    SplitNone(a, ',');
    SplitNone(b, ',');
    SplitNone(c, ',');
    assert a + "," + b + "," + c == (a + [','] + b) + [','] + c;
  }

  lemma TrimOwnPrefix(prefix: string, s: string)
    ensures HasPrefix(prefix + s, prefix) && TrimPrefix(prefix + s, prefix) == s
  {
    assert (prefix + s)[..|prefix|] == prefix;
    assert (prefix + s)[|prefix|..] == s;
  }

  lemma {:induction false} JoinedHasNot(parts: seq<string>, separator: char, c: char)
    requires c != separator && forall i :: 0 <= i < |parts| ==> c !in parts[i]
    ensures c !in Join(parts, separator)
  {
    if |parts| > 1 {
      JoinedHasNot(parts[1..], separator, c);
    }
  }

  lemma SplitOptions(joined: string, upper: string, work: string)
    requires ',' !in joined && ',' !in upper && ',' !in work
    ensures Split(Options(joined, upper, work), ',') == [LOWER + joined, UPPER + upper, WORK + work]
  {
    hide Split;
    SplitThree(LOWER + joined, UPPER + upper, WORK + work);
    assert Options(joined, upper, work) == (LOWER + joined) + "," + (UPPER + upper) + "," + (WORK + work);
  }

  lemma ParseThree(options: string, joined: string, upper: string, work: string)
    requires Split(options, ',') == [LOWER + joined, UPPER + upper, WORK + work]
    ensures PlainParse(options) == Overlay(Split(joined, ':'), upper, work)
  {
    hide Split, HasPrefix, TrimPrefix;
    TrimOwnPrefix(LOWER, joined);
    TrimOwnPrefix(UPPER, upper);
    TrimOwnPrefix(WORK, work);
  }

  lemma ParseOptions(lowers: seq<string>, upper: string, work: string)
    requires lowers != [] && ',' !in upper && ',' !in work
    requires forall i :: 0 <= i < |lowers| ==> ':' !in lowers[i] && ',' !in lowers[i]
    ensures PlainParse(Options(Join(lowers, ':'), upper, work)) == Overlay(lowers, upper, work)
  {
    hide PlainParse, Options, Split, Join;
    var joined := Join(lowers, ':');
    JoinedHasNot(lowers, ':', ',');
    SplitOptions(joined, upper, work);
    ParseThree(Options(joined, upper, work), joined, upper, work);
    SplitJoin(lowers, ':');
  }

  lemma PartOfPiece(prefix: string, piece: string, s: string, c: char)
    requires c !in piece && s == TrimPrefix(piece, prefix)
    ensures c !in s
  {
  }

  lemma {:induction false} SplitHasNot(s: string, separator: char, c: char)
    requires c !in s
    ensures forall i :: 0 <= i < |Split(s, separator)| ==> c !in Split(s, separator)[i]
  {
    if s != "" {
      SplitHasNot(s[1..], separator, c);
    }
  }

  lemma ParsedHasNoSeparators(options: string)
    requires PlainParse(options).Overlay?
    ensures ',' !in PlainParse(options).upper && ',' !in PlainParse(options).work
    ensures forall i :: 0 <= i < |PlainParse(options).lowers| ==>
      ':' !in PlainParse(options).lowers[i] && ',' !in PlainParse(options).lowers[i]
  {
    var parts := Split(options, ',');
    PartOfPiece(LOWER, parts[0], TrimPrefix(parts[0], LOWER), ',');
    PartOfPiece(UPPER, parts[1], TrimPrefix(parts[1], UPPER), ',');
    PartOfPiece(WORK, parts[2], TrimPrefix(parts[2], WORK), ',');
    SplitHasNot(TrimPrefix(parts[0], LOWER), ':', ',');
  }

  lemma PlainRoundTripIff(lowers: seq<string>, upper: string, work: string)
    requires lowers != []
    ensures PlainParse(Options(Join(lowers, ':'), upper, work)) == Overlay(lowers, upper, work)
       <==> ',' !in upper && ',' !in work && forall i :: 0 <= i < |lowers| ==> ':' !in lowers[i] && ',' !in lowers[i]
  {
    hide PlainParse, Options, Join;
    var options := Options(Join(lowers, ':'), upper, work);
    if PlainParse(options) == Overlay(lowers, upper, work) {
      ParsedHasNoSeparators(options);
    } else if ',' !in upper && ',' !in work &&
              forall i :: 0 <= i < |lowers| ==> ':' !in lowers[i] && ',' !in lowers[i] {
      ParseOptions(lowers, upper, work);
    }
  }

  // ---- backslashes

  lemma ClearParsesPlainly(options: string)
    requires Clear(options)
    ensures Parse(options) == PlainParse(options)
  {
    hide SplitUnescaped, UnescapeAll, Unescape, Split;
    SplitClear(options, ',');
    var parts := Split(options, ',');
    SplitHasNot(options, ',', '\\');
    if |parts| == 3 {
      PartOfPiece(LOWER, parts[0], TrimPrefix(parts[0], LOWER), '\\');
      PartOfPiece(UPPER, parts[1], TrimPrefix(parts[1], UPPER), '\\');
      PartOfPiece(WORK, parts[2], TrimPrefix(parts[2], WORK), '\\');
      var lower := TrimPrefix(parts[0], LOWER);
      SplitClear(lower, ':');
      SplitHasNot(lower, ':', '\\');
      UnescapeAllClear(Split(lower, ':'));
      UnescapeClear(TrimPrefix(parts[1], UPPER));
      UnescapeClear(TrimPrefix(parts[2], WORK));
    }
  }

  /** What comes out is as long as what went in only if nothing was unescaped. */
  lemma SameLengthMeansClear(lower: string, lowers: seq<string>, c: char)
    requires lowers == UnescapeAll(SplitUnescaped(lower, c)) && c != '\\'
    ensures |Join(lowers, c)| <= |lower|
    ensures |Join(lowers, c)| == |lower| ==> Clear(lower)
  {
    hide Join, SplitUnescaped, UnescapeAll;
    var parts := SplitUnescaped(lower, c);
    JoinSplitUnescaped(lower, c);
    JoinLength(parts, c);
    UnescapeAllShortens(parts);
    JoinLength(lowers, c);
    if |Join(lowers, c)| == |lower| {
      JoinClear(parts, c);
    }
  }

  lemma PrefixedClear(prefix: string, s: string)
    requires HasPrefix(s, prefix) && Clear(prefix) && Clear(TrimPrefix(s, prefix))
    ensures Clear(s)
  {
    assert s == prefix + TrimPrefix(s, prefix);
  }

  lemma ReadBackMeansClear(lowers: seq<string>, upper: string, work: string)
    requires Parse(Options(Join(lowers, ':'), upper, work)) == Overlay(lowers, upper, work)
    ensures Clear(Options(Join(lowers, ':'), upper, work))
  {
    hide Join, SplitUnescaped, UnescapeAll, Unescape, HasPrefix, TrimPrefix;
    var joined := Join(lowers, ':');
    var options := Options(joined, upper, work);
    var parts := SplitUnescaped(options, ',');
    var l, u, w := TrimPrefix(parts[0], LOWER), TrimPrefix(parts[1], UPPER), TrimPrefix(parts[2], WORK);
    TrimLength(LOWER, parts[0]);
    TrimLength(UPPER, parts[1]);
    TrimLength(WORK, parts[2]);
    JoinSplitUnescaped(options, ',');
    JoinLength(parts, ',');
    TotalOfThree(parts);
    SameLengthMeansClear(l, lowers, ':');
    UnescapeShortens(u);
    UnescapeShortens(w);
    OptionsLength(joined, upper, work);
    KeywordsClear();
    PrefixedClear(LOWER, parts[0]);
    PrefixedClear(UPPER, parts[1]);
    PrefixedClear(WORK, parts[2]);
    JoinClear(parts, ',');
  }

  lemma TrimLength(prefix: string, s: string)
    ensures HasPrefix(s, prefix) ==> |s| == |prefix| + |TrimPrefix(s, prefix)|
  {
  }

  lemma TotalOfThree(parts: seq<string>)
    requires |parts| == 3
    ensures Total(parts) == |parts[0]| + |parts[1]| + |parts[2]|
  {
    var two, one := parts[1..], parts[2..];
    assert two[1..] == one && one[1..] == [];
    assert Total(one) == |parts[2]| + Total(one[1..]);
    assert Total(two) == |parts[1]| + Total(two[1..]);
  }

  lemma OptionsLength(joined: string, upper: string, work: string)
    ensures |Options(joined, upper, work)| == |LOWER| + |joined| + |UPPER| + |upper| + |WORK| + |work| + 2
  {
  }

  lemma KeywordsClear()
    ensures Clear(LOWER) && Clear(UPPER) && Clear(WORK)
  {
  }

  lemma {:induction false} ClearJoined(parts: seq<string>, c: char)
    requires Clear(Join(parts, c))
    ensures AllClear(parts)
  {
    if |parts| > 1 {
      ClearPieces(parts[0] + [c], Join(parts[1..], c));
      ClearPieces(parts[0], [c]);
      ClearJoined(parts[1..], c);
    }
  }

  lemma ClearPieces(a: string, b: string)
    ensures Clear(a + b) <==> Clear(a) && Clear(b)
  {
    assert forall i :: 0 <= i < |a| ==> (a + b)[i] == a[i];
    assert forall i :: 0 <= i < |b| ==> (a + b)[|a| + i] == b[i];
  }

  lemma OptionsClear(joined: string, upper: string, work: string)
    ensures Clear(Options(joined, upper, work)) <==> Clear(joined) && Clear(upper) && Clear(work)
  {
    KeywordsClear();
    ClearPieces(LOWER + joined + "," + UPPER + upper + "," + WORK, work);
    ClearPieces(LOWER + joined + "," + UPPER + upper + ",", WORK);
    ClearPieces(LOWER + joined + "," + UPPER + upper, ",");
    ClearPieces(LOWER + joined + "," + UPPER, upper);
    ClearPieces(LOWER + joined + ",", UPPER);
    ClearPieces(LOWER + joined, ",");
    ClearPieces(LOWER, joined);
  }

  /** A path that the option string can carry as it is. */
  predicate Carried(path: string) { ',' !in path && Clear(path) }

  /**
   The kernel gets exactly the layers, topmost first, and the container's directories if
   and only if no path holds a separator or a backslash.
   */
  lemma {:induction false} OptionsRoundTripIff(layers: seq<string>, upper: string, work: string)
    requires layers != []
    ensures Parse(Options(Join(Reversed(layers), ':'), upper, work)) == Overlay(Reversed(layers), upper, work)
       <==> Carried(upper) && Carried(work) && forall i :: 0 <= i < |layers| ==> ':' !in layers[i] && Carried(layers[i])
  {
    hide Parse, PlainParse, Options, Join;
    var lowers := Reversed(layers);
    var options := Options(Join(lowers, ':'), upper, work);
    PlainRoundTripIff(lowers, upper, work);
    OptionsClear(Join(lowers, ':'), upper, work);
    if Parse(options) == Overlay(lowers, upper, work) {
      ReadBackMeansClear(lowers, upper, work);
      ClearParsesPlainly(options);
      ClearJoined(lowers, ':');
      forall i | 0 <= i < |layers|
        ensures ':' !in layers[i] && Carried(layers[i])
      {
        assert layers[i] == lowers[|layers| - 1 - i];
      }
    } else if Carried(upper) && Carried(work) &&
              forall i :: 0 <= i < |layers| ==> ':' !in layers[i] && Carried(layers[i]) {
      JoinClear(lowers, ':');
      ClearParsesPlainly(options);
    }
  }

  /** What MountOverlay hands to the kernel for an image's layers, and when it refuses. */
  lemma {:induction false} MountGetsLayers(layers: seq<string>, containerDir: string)
    requires containerDir != ""
    ensures var mounting := MountOverlay(Join(Reversed(layers), ':'), containerDir);
            var upper, work := JoinPath(containerDir, "upper"), JoinPath(containerDir, "work");
            && (mounting == NoLayers <==> layers == [] || layers == [""])
            && (mounting.Mount? ==>
                  (Parse(mounting.options) == Overlay(Reversed(layers), upper, work) <==>
                     && Carried(upper) && Carried(work)
                     && forall i :: 0 <= i < |layers| ==> ':' !in layers[i] && Carried(layers[i])))
  {
    hide Parse, Options, JoinPath;
    assert |layers| == 1 ==> Join(Reversed(layers), ':') == layers[0];
    if layers != [] {
      OptionsRoundTripIff(layers, JoinPath(containerDir, "upper"), JoinPath(containerDir, "work"));
    }
  }

  /** The option string to the letter. */
  lemma {:induction false} OptionString(joined: string, upper: string, work: string)
    ensures Options(joined, upper, work) == "lowerdir=" + joined + ",upperdir=" + upper + ",workdir=" + work
  {
    var a := LOWER + joined;
    assert a + "," + UPPER + upper + "," + WORK + work == a + (",upperdir=" + upper + (",workdir=" + work));
  }
}
