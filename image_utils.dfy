/** Image file names derived from a product's customer item number and a colour:
    `/images/SYKEDT_{item}_{Colour}.jpg`, with a size-specific form for the YETI kit. */
module ImageUtils {
  import opened Base

  // ---------------------------------------------------------------- colour names

  /** The six colour names whose file-name form is fixed rather than derived. */
  const ColorMap: map<string, string> := map[
    "Anthracite Heather" := "AnthraciteHeather",
    "Dark Grey Heather" := "DarkGreyHeather",
    "Dark Grey" := "DarkGrey",
    "Graphite Heather" := "GraphiteHeather",
    "TNF Black" := "TNFBlack",
    "Cape Taupe" := "CapeTaupe"
  ]

  /** `word.charAt(0).toUpperCase() + word.slice(1).toLowerCase()`. */
  function Capitalize(word: string): (r: string)
    ensures |r| == |word|
    ensures word != [] ==> r[0] == UpperChar(word[0]) && r[1..] == ToLower(word[1..])
    ensures ToLower(r) == ToLower(word)
  {
    if word == [] then []
    else
      var r := [UpperChar(word[0])] + ToLower(word[1..]);
      assert forall i :: 0 <= i < |r| ==> LowerChar(r[i]) == LowerChar(word[i]);
      r
  }

  function CapitalizeAll(words: seq<string>): (r: seq<string>)
    ensures |r| == |words|
    ensures forall i :: 0 <= i < |words| ==> r[i] == Capitalize(words[i])
  {
    if words == [] then [] else [Capitalize(words[0])] + CapitalizeAll(words[1..])
  }

  /** The default rule: split on spaces, capitalise each word, join with nothing between. */
  function DefaultColorName(color: string): string {
    Join(CapitalizeAll(Split(color, ' ')), "")
  }

  /** `normalizeColorForImage`: the fixed form for a listed name, the default rule otherwise. */
  function NormalizeColorForImage(color: string): (r: string)
    ensures color in ColorMap ==> r == ColorMap[color]
    ensures color !in ColorMap ==> r == DefaultColorName(color)
    ensures ' ' !in r
  {
    if color in ColorMap then
      var r := ColorMap[color];
      assert ' ' !in r;
      r
    else
      DefaultColorNameHasNoSpace(color);
      DefaultColorName(color)
  }

  /** `s` with every occurrence of `c` removed. */
  function Without(s: string, c: char): (r: string)
    ensures c !in r
    ensures |r| == |s| - CountChar(s, c)
  {
    if s == [] then [] else (if s[0] == c then [] else [s[0]]) + Without(s[1..], c)
  }

  lemma {:induction false} ToLowerAppend(a: string, b: string)
    ensures ToLower(a + b) == ToLower(a) + ToLower(b)
  {
    assert forall i :: 0 <= i < |a + b| ==> ToLower(a + b)[i] == (ToLower(a) + ToLower(b))[i];
  }

  lemma {:induction false} JoinAppendEmpty(parts: seq<string>)
    requires parts != []
    ensures Join(parts, "") == parts[0] + Join(parts[1..], "")
  {
    if |parts| == 1 {
      assert parts[1..] == [];
    }
  }

  /** Joining the pieces of a split with nothing between them deletes the separators. */
  lemma {:induction false} JoinSplitEmpty(s: string, c: char)
    ensures Join(Split(s, c), "") == Without(s, c)
    decreases |s|
  {
    if s != [] {
      JoinSplitEmpty(s[1..], c);
      var rest := Split(s[1..], c);
      JoinAppendEmpty(rest);
      if s[0] == c {
        JoinAppendEmpty([""] + rest);
        assert ([""] + rest)[1..] == rest;
      } else {
        var parts := [[s[0]] + rest[0]] + rest[1..];
        JoinAppendEmpty(parts);
        assert parts[1..] == rest[1..];
      }
    }
  }

  lemma {:induction false} CapitalizeAllJoinLower(words: seq<string>)
    ensures ToLower(Join(CapitalizeAll(words), "")) == ToLower(Join(words, ""))
    decreases |words|
  {
    if words != [] {
      var caps := CapitalizeAll(words);
      CapitalizeAllJoinLower(words[1..]);
      JoinAppendEmpty(words);
      JoinAppendEmpty(caps);
      assert caps[1..] == CapitalizeAll(words[1..]);
      ToLowerAppend(caps[0], Join(caps[1..], ""));
      ToLowerAppend(words[0], Join(words[1..], ""));
    }
  }

  lemma {:induction false} CapitalizeAllNoSpace(words: seq<string>)
    requires forall i :: 0 <= i < |words| ==> ' ' !in words[i]
    ensures ' ' !in Join(CapitalizeAll(words), "")
    decreases |words|
  {
    if words != [] {
      var caps := CapitalizeAll(words);
      JoinAppendEmpty(caps);
      assert caps[1..] == CapitalizeAll(words[1..]);
      CapitalizeAllNoSpace(words[1..]);
      var w := words[0];
      assert forall i :: 0 <= i < |caps[0]| ==> LowerChar(caps[0][i]) == LowerChar(w[i]);
      assert forall i :: 0 <= i < |caps[0]| ==> caps[0][i] != ' ';
    }
  }

  lemma DefaultColorNameHasNoSpace(color: string)
    ensures ' ' !in DefaultColorName(color)
  {
    CapitalizeAllNoSpace(Split(color, ' '));
  }

  /** Up to letter case, the default name is the colour with its spaces deleted:
      capitalising changes no letter, and the words are joined with nothing between. */
  lemma DefaultColorNameIsColorWithoutSpaces(color: string)
    ensures ToLower(DefaultColorName(color)) == ToLower(Without(color, ' '))
    ensures |DefaultColorName(color)| == |color| - CountChar(color, ' ')
  {
    CapitalizeAllJoinLower(Split(color, ' '));
    JoinSplitEmpty(color, ' ');
  }

  /** The listed `TNF Black` keeps its capitals; the default rule would lower-case `NF`. */
  lemma TnfBlackIsListed()
    ensures NormalizeColorForImage("TNF Black") == "TNFBlack"
    ensures DefaultColorName("TNF Black") == "TnfBlack"
  {
    TnfBlackDefault();
  }

  lemma TnfBlackDefault()
    ensures DefaultColorName("TNF Black") == "TnfBlack"
  {
    calc {
      DefaultColorName("TNF Black");
      == { SplitTnfBlack(); }
      Join(CapitalizeAll(["TNF", "Black"]), "");
      == { TwoWords("TNF", "Black"); }
      Capitalize("TNF") + Capitalize("Black");
      == { CapitalizeExamples(); }
      "Tnf" + "Black";
      == { TnfBlackJoined(); }
      "TnfBlack";
    }
  }

  lemma TnfBlackJoined()
    ensures "Tnf" + "Black" == "TnfBlack"
  {
  }

  lemma TwoWords(a: string, b: string)
    ensures Join(CapitalizeAll([a, b]), "") == Capitalize(a) + Capitalize(b)
  {
    var caps := CapitalizeAll([a, b]);
    assert caps == [Capitalize(a), Capitalize(b)];
    JoinAppendEmpty(caps);
    assert caps[1..] == [Capitalize(b)];
  }

  lemma SplitTnfBlack()
    ensures Split("TNF Black", ' ') == ["TNF", "Black"]
  {
    var words := ["TNF", "Black"];
    assert Join(words, " ") == "TNF Black";
    SplitJoin(words, ' ');
  }

  lemma CapitalizeExamples()
    ensures Capitalize("TNF") == "Tnf"
    ensures Capitalize("Black") == "Black"
  {
    assert ToLower("NF") == "nf";
    assert ToLower("lack") == "lack";
  }

  // ---------------------------------------------------------------- item numbers

  const ItemPrefix := "SYKEDT-"
  const YetiKitNumber := "SYKEDT-KIT-YETI-08"

  /** `size.replace('oz', '').padStart(2, '0')`: the size as it appears in a YETI file name. */
  function YetiSizeNumber(size: string): string {
    PadStart(ReplaceFirst(size, "oz", ""), 2, '0')
  }

  lemma NotOccursAtZero(s: string, p: string)
    requires |p| <= |s| && s[..|p|] != p
    ensures !OccursAt(s, p, 0)
  {
  }

  /** A one-digit size is padded with a leading zero, a two-digit one is kept:
      `8oz` gives `08`, `26oz` gives `26`. */
  lemma YetiSizeNumberDigits(d: char, e: char)
    requires IsAsciiDigit(d) && IsAsciiDigit(e)
    ensures YetiSizeNumber([d] + "oz") == ['0', d]
    ensures YetiSizeNumber([d, e] + "oz") == [d, e]
  {
    var s1 := [d] + "oz";
    assert OccursAt(s1, "oz", 1);
    assert s1[..2] != "oz" by { assert s1[..2][0] == d; }
    NotOccursAtZero(s1, "oz");
    assert ReplaceFirst(s1, "oz", "") == [d];
    assert PadStart([d], 2, '0') == PadStart(['0', d], 2, '0');
    var s2 := [d, e] + "oz";
    assert OccursAt(s2, "oz", 2);
    assert !OccursAt(s2, "oz", 0) && !OccursAt(s2, "oz", 1);
    assert ReplaceFirst(s2, "oz", "") == [d, e];
  }

  /** `s.replace(p, t)` when `s` starts with `p` replaces that prefix. */
  lemma ReplaceFirstPrefix(s: string, p: string, t: string)
    requires StartsWith(s, p)
    ensures ReplaceFirst(s, p, t) == t + s[|p|..]
  {
    assert OccursAt(s, p, 0);
  }

  /** The item part of the file name: a leading `SYKEDT-` is dropped and, if a dash
      remains, only the last dash-separated segment is kept. */
  function ItemPart(item: string): (r: string)
    ensures !StartsWith(item, ItemPrefix) ==> r == item
    ensures StartsWith(item, ItemPrefix) && '-' !in item[|ItemPrefix|..] ==> r == item[|ItemPrefix|..]
    ensures StartsWith(item, ItemPrefix) && '-' in item[|ItemPrefix|..] ==>
      '-' !in r && |r| < |item| - |ItemPrefix| && r == item[|item| - |r|..] && item[|item| - |r| - 1] == '-'
  {
    if StartsWith(item, ItemPrefix) then
      ReplaceFirstPrefix(item, ItemPrefix, "");
      var rest := ReplaceFirst(item, ItemPrefix, "");
      if '-' in rest then
        var parts := Split(rest, '-');
        LastPartIsSuffix(rest, '-');
        LastPartFollowsSeparator(rest, '-');
        Last(parts)
      else rest
    else item
  }

  // ---------------------------------------------------------------- paths

  /** `getProductImagePath(customerItemNumber, color, size)`. */
  function GetProductImagePath(item: Option<string>, color: string, size: Option<string>): (r: Option<string>)
    ensures r.None? <==> !Truthy(item) || color == ""
    ensures r.Some? && item.value == YetiKitNumber && Truthy(size) ==>
      r.value == "/images/SYKEDT-YETI-" + YetiSizeNumber(size.value) + "-" + NormalizeColorForImage(color) + ".jpg"
    ensures r.Some? && !(item.value == YetiKitNumber && Truthy(size)) ==>
      r.value == "/images/SYKEDT_" + ItemPart(item.value) + "_" + NormalizeColorForImage(color) + ".jpg"
  {
    if !Truthy(item) || color == "" then None
    else if item.value == YetiKitNumber && Truthy(size) then
      Some("/images/SYKEDT-YETI-" + YetiSizeNumber(size.value) + "-" + NormalizeColorForImage(color) + ".jpg")
    else
      Some("/images/SYKEDT_" + ItemPart(item.value) + "_" + NormalizeColorForImage(color) + ".jpg")
  }

  /** Without a size, the YETI kit number falls through to the generic rule, which keeps
      only its last segment `08`. */
  lemma YetiKitWithoutSize()
    ensures ItemPart(YetiKitNumber) == "08"
  {
    var rest := YetiKitNumber[|ItemPrefix|..];
    assert rest == "KIT-YETI-08";
    assert '-' in rest by { assert rest[3] == '-'; }
    var r := ItemPart(YetiKitNumber);
    // The last dash of the number is at index 15, so the part after it has length 2.
    assert YetiKitNumber[15] == '-' && YetiKitNumber[16..] == "08";
    assert |r| == 2;
  }

  /** `generateColorThumbnails`: one size-less path per non-empty colour, filled in a loop. */
  method GenerateColorThumbnails(item: Option<string>, colors: Option<seq<string>>) returns (r: Option<map<string, string>>)
    ensures r.None? <==> !Truthy(item) || colors.None? || |colors.value| == 0
    ensures r.Some? ==> r.value.Keys == set c | c in colors.value && c != ""
    ensures r.Some? ==> forall c :: c in r.value ==>
      GetProductImagePath(item, c, None) == Some(r.value[c])
  {
    if !Truthy(item) || colors.None? || |colors.value| == 0 {
      return None;
    }
    var thumbnails: map<string, string> := map[];
    var i := 0;
    while i < |colors.value|
      invariant 0 <= i <= |colors.value|
      invariant forall c :: c in thumbnails <==> c in colors.value[..i] && c != ""
      invariant forall c :: c in thumbnails ==> GetProductImagePath(item, c, None) == Some(thumbnails[c])
    {
      var color := colors.value[i];
      var path := GetProductImagePath(item, color, None);
      if path.Some? {
        thumbnails := thumbnails[color := path.value];
      }
      assert colors.value[..i + 1] == colors.value[..i] + [color];
      i := i + 1;
    }
    assert colors.value[..i] == colors.value;
    return Some(thumbnails);
  }
}
