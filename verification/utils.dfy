/**
 * `toCamel` and the two generations of `shape_tag`
 * (cocapi/utils/utils.py, its copy cocapi/utils.py, and the older src/utils.py).
 */
module Utils {
  import opened Text

  /** The segment transformation of `toCamel`. */
  function CamelSegments(parts: seq<string>, lowerFirst: bool): seq<string>
    requires |parts| >= 1
  {
    if lowerFirst then [Lower(parts[0])] + seq(|parts| - 1, i requires 0 <= i < |parts| - 1 => Title(parts[i + 1]))
    else seq(|parts|, i requires 0 <= i < |parts| => Capitalize(parts[i]))
  }

  /**
   * `toCamel(string, lower_first=...)`: split on "_", lower-case the first
   * piece and title-case the others (or capitalise every piece), then glue.
   */
  function ToCamel(s: string, lowerFirst: bool): (r: string)
    ensures '_' !in r
    ensures |r| == |s| - Count(s, '_')
    ensures Lower(r) == Lower(Remove(s, '_'))
  {
    var r := Concat(CamelSegments(Split(s, '_'), lowerFirst));
    ToCamelFacts(s, lowerFirst);
    r
  }

  lemma ToCamelFacts(s: string, lowerFirst: bool)
    ensures var r := Concat(CamelSegments(Split(s, '_'), lowerFirst));
      && '_' !in r && |r| == |s| - Count(s, '_') && Lower(r) == Lower(Remove(s, '_'))
  {
    var parts := Split(s, '_');
    var segs := CamelSegments(parts, lowerFirst);
    var lowered := seq(|parts|, i requires 0 <= i < |parts| => Lower(parts[i]));
    assert seq(|segs|, i requires 0 <= i < |segs| => Lower(segs[i])) == lowered by {
      forall i | 0 <= i < |parts|
        ensures Lower(segs[i]) == Lower(parts[i])
      {
        if lowerFirst && i == 0 {
          LowerIdempotent(parts[0]);
        } else if lowerFirst {
          LowerOfTitle(parts[i]);
        } else {
          LowerOfCapitalize(parts[i]);
        }
      }
    }
    LowerConcat(segs);
    LowerConcat(parts);
    ConcatSplit(s, '_');
    CountRemove(s, '_');
    SplitPiecesFree(s, '_');
    SegmentsFree(segs, parts, lowerFirst);
    SameLengthsConcat(segs, parts);
  }

  lemma SegmentsFree(segs: seq<string>, parts: seq<string>, lowerFirst: bool)
    requires |parts| >= 1 && segs == CamelSegments(parts, lowerFirst)
    requires forall i :: 0 <= i < |parts| ==> '_' !in parts[i]
    ensures forall i :: 0 <= i < |segs| ==> '_' !in segs[i]
    ensures '_' !in Concat(segs)
  {
    forall i | 0 <= i < |segs|
      ensures '_' !in segs[i]
    {
      CaseMapKeepsNonLetter(parts[i], '_');
    }
    ConcatFree(segs, '_');
  }

  lemma {:induction false} ConcatFree(parts: seq<string>, c: char)
    requires forall i :: 0 <= i < |parts| ==> c !in parts[i]
    ensures c !in Concat(parts)
  {
    if |parts| > 0 {
      ConcatFree(parts[1..], c);
    }
  }

  lemma {:induction false} SameLengthsConcat(a: seq<string>, b: seq<string>)
    requires |a| == |b|
    requires forall i :: 0 <= i < |a| ==> |a[i]| == |b[i]|
    ensures |Concat(a)| == |Concat(b)|
  {
    if |a| > 0 {
      SameLengthsConcat(a[1..], b[1..]);
    }
  }

  /** `toCamel` of a name without underscores is just a case change of the name. */
  lemma ToCamelSingleSegment(s: string)
    requires '_' !in s
    ensures ToCamel(s, true) == Lower(s)
    ensures ToCamel(s, false) == Capitalize(s)
  {
    SplitFree(s, '_');
  }

  /** `toCamel` of underscore-joined words transforms exactly those words. */
  lemma ToCamelOfWords(words: seq<string>, lowerFirst: bool)
    requires |words| >= 1
    requires forall i :: 0 <= i < |words| ==> '_' !in words[i]
    ensures ToCamel(Join(words, "_"), lowerFirst) == Concat(CamelSegments(words, lowerFirst))
  {
    SplitJoin(words, '_');
  }

  /** `s.replace("#", "%23")` */
  function EscapeHash(s: string): string {
    if |s| == 0 then "" else (if s[0] == '#' then "%23" else [s[0]]) + EscapeHash(s[1..])
  }

  /**
   * `shape_tag` of cocapi/utils/utils.py (identical copy in cocapi/utils.py):
   * upper-case the tag and percent-encode every `#`.
   */
  function ShapeTag(tag: string): (r: string)
    ensures '#' !in r
    ensures |r| == |tag| + 2 * Count(tag, '#')
  {
    var u := Upper(tag);
    EscapeHashFacts(u);
    assert Count(u, '#') == Count(tag, '#') by { UpperKeepsCount(tag, '#'); }
    EscapeHash(u)
  }

  lemma {:induction false} EscapeHashFacts(s: string)
    ensures '#' !in EscapeHash(s)
    ensures |EscapeHash(s)| == |s| + 2 * Count(s, '#')
    ensures (forall i :: 0 <= i < |s| ==> !IsLowerChar(s[i])) ==>
      forall i :: 0 <= i < |EscapeHash(s)| ==> !IsLowerChar(EscapeHash(s)[i])
  {
    if |s| > 0 {
      EscapeHashFacts(s[1..]);
    }
  }

  lemma {:induction false} UpperKeepsCount(s: string, c: char)
    requires !IsCased(c)
    ensures Count(Upper(s), c) == Count(s, c)
  {
    if |s| > 0 {
      UpperKeepsCount(s[1..], c);
      assert Upper(s)[1..] == Upper(s[1..]);
    }
  }

  lemma {:induction false} EscapeHashNoHash(s: string)
    requires '#' !in s
    ensures EscapeHash(s) == s
  {
    if |s| > 0 {
      EscapeHashNoHash(s[1..]);
      assert [s[0]] + s[1..] == s;
    }
  }

  /** Tags that agree after upper-casing are shaped identically. */
  lemma ShapeTagIgnoresCase(a: string, b: string)
    requires Upper(a) == Upper(b)
    ensures ShapeTag(a) == ShapeTag(b)
  {
  }

  /** A tag written as `#` plus a `#`-free body is shaped to "%23" plus the upper-cased body. */
  lemma ShapeTagOfHashed(body: string)
    requires '#' !in body
    ensures ShapeTag("#" + body) == "%23" + Upper(body)
  {
    UpperAppend("#", body);
    assert Upper("#") == "#";
    var u := Upper(body);
    CaseMapKeepsNonLetter(body, '#');
    assert ("#" + u)[1..] == u;
    EscapeHashNoHash(u);
  }

  /** Shaping an already shaped tag changes nothing. */
  lemma ShapeTagIdempotent(tag: string)
    ensures ShapeTag(ShapeTag(tag)) == ShapeTag(tag)
  {
    var r := ShapeTag(tag);
    EscapeHashFacts(Upper(tag));
    assert Upper(r) == r;
    EscapeHashNoHash(r);
  }

  /** `shape_tag` never prepends anything: a tag without `#` only changes case. */
  lemma ShapeTagNoPrefix(tag: string)
    requires '#' !in tag
    ensures ShapeTag(tag) == Upper(tag)
  {
    CaseMapKeepsNonLetter(tag, '#');
    EscapeHashNoHash(Upper(tag));
  }

  /** `s` contains the escape sequence "%23" somewhere. */
  predicate HasEscape(s: string) {
    |s| >= 3 && (s[..3] == "%23" || HasEscape(s[1..]))
  }

  /** The decoder that reverses `s.replace("#", "%23")`, scanning left to right. */
  function UnescapeHash(s: string): string {
    if |s| >= 3 && s[..3] == "%23" then "#" + UnescapeHash(s[3..])
    else if |s| == 0 then ""
    else [s[0]] + UnescapeHash(s[1..])
  }

  lemma {:induction false} UnescapeEscape(s: string)
    requires !HasEscape(s)
    ensures UnescapeHash(EscapeHash(s)) == s
  {
    if |s| > 0 {
      var rest := EscapeHash(s[1..]);
      assert !HasEscape(s[1..]);
      UnescapeEscape(s[1..]);
      if s[0] == '#' {
        assert EscapeHash(s) == "%23" + rest;
        assert ("%23" + rest)[..3] == "%23";
        assert ("%23" + rest)[3..] == rest;
      } else {
        assert EscapeHash(s) == [s[0]] + rest;
        if |rest| >= 2 && s[0] == '%' && rest[..2] == "23" {
          EscapeStartsLike(s[1..]);
          assert false;
        }
        assert ([s[0]] + rest)[1..] == rest;
        assert [s[0]] + s[1..] == s;
      }
    }
  }

  /** The first two characters of an escaped string are "23" only if the input began that way. */
  lemma EscapeStartsLike(s: string)
    requires |EscapeHash(s)| >= 2 && EscapeHash(s)[..2] == "23"
    ensures |s| >= 2 && s[..2] == "23"
  {
    var e := EscapeHash(s);
    assert e[0] == '2' && e[1] == '3';
    assert |s| > 0;
    var rest := EscapeHash(s[1..]);
    assert e == [s[0]] + rest;
    assert s[0] == '2';
    assert rest[0] == '3';
    assert |s[1..]| > 0;
    var rest2 := EscapeHash(s[2..]);
    assert rest == [s[1]] + rest2;
  }

  lemma {:induction false} UpperKeepsEscape(s: string)
    ensures HasEscape(Upper(s)) == HasEscape(s)
  {
    if |s| >= 3 {
      assert Upper(s)[..3] == Upper(s[..3]);
      assert Upper(s)[1..] == Upper(s[1..]);
      UpperKeepsEscape(s[1..]);
    }
  }

  /**
   * Round trip: decoding a shaped tag gives back the upper-cased tag, provided
   * the tag did not already contain an escaped "%23".
   */
  lemma ShapeTagRoundTrip(tag: string)
    requires !HasEscape(tag)
    ensures UnescapeHash(ShapeTag(tag)) == Upper(tag)
  {
    UpperKeepsEscape(tag);
    UnescapeEscape(Upper(tag));
  }

  /** `shape_tag` of src/utils.py: "%23" followed by the tag minus its first character. */
  function ShapeTagSrc(tag: string): (r: string)
    ensures |r| >= 3 && r[..3] == "%23"
    ensures |r| == if |tag| == 0 then 3 else |tag| + 2
    ensures forall i :: 1 <= i < |tag| ==> r[i + 2] == tag[i]
  {
    "%23" + (if |tag| == 0 then "" else tag[1..])
  }

  /**
   * For a canonical tag (leading `#`, no other `#`, already upper-case) the old
   * and the new `shape_tag` agree; the old one drops any first character.
   */
  lemma ShapeTagGenerationsAgree(tag: string)
    requires |tag| >= 1 && tag[0] == '#' && '#' !in tag[1..]
    requires Upper(tag) == tag
    ensures ShapeTagSrc(tag) == ShapeTag(tag)
  {
    EscapeHashNoHash(tag[1..]);
    assert EscapeHash(tag) == "%23" + EscapeHash(tag[1..]);
  }

  /** The old variant drops the first character whatever it is. */
  lemma ShapeTagSrcDropsFirst(c: char, rest: string)
    ensures ShapeTagSrc([c] + rest) == "%23" + rest
  {
    assert ([c] + rest)[1..] == rest;
  }
}

/** Concrete tags from the repository's clan tests, checked against `Utils.ShapeTag`. */
module TagExamples {
  import opened Text
  import opened Utils

  /**
   * The spellings exercised by the clan test ("#LQGPL8LL", "#lqGPL8ll")
   * resolve to the same path segment, while a tag without `#` gets no prefix.
   */
  lemma ShapeTagExample(upper: string, mixed: string, bare: string)
    requires upper == "#LQGPL8LL" && mixed == "#lqGPL8ll" && bare == "lqGPL8ll"
    ensures ShapeTag(upper) == ShapeTag(mixed) == "%23LQGPL8LL"
    ensures ShapeTag(bare) == "LQGPL8LL"
  {
    UpperTagExample(upper);
    MixedTagExample(mixed);
    BareTagExample(bare);
  }

  lemma UpperTagExample(upper: string)
    requires upper == "#LQGPL8LL"
    ensures ShapeTag(upper) == "%23LQGPL8LL"
  {
    assert Upper("LQGPL8LL") == "LQGPL8LL";
    ShapeHashed(upper, "LQGPL8LL");
  }

  lemma MixedTagExample(mixed: string)
    requires mixed == "#lqGPL8ll"
    ensures ShapeTag(mixed) == "%23LQGPL8LL"
  {
    var body := "lqGPL8ll";
    assert Upper(body) == "LQGPL8LL";
    ShapeHashed(mixed, body);
  }

  lemma BareTagExample(bare: string)
    requires bare == "lqGPL8ll"
    ensures ShapeTag(bare) == "LQGPL8LL"
  {
    assert Upper(bare) == "LQGPL8LL";
    ShapeTagNoPrefix(bare);
  }

  lemma ShapeHashed(tag: string, body: string)
    requires tag == "#" + body && '#' !in body
    ensures ShapeTag(tag) == "%23" + Upper(body)
  {
    ShapeTagOfHashed(body);
  }
}
