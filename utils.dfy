/** The helpers of `client/src/lib/utils.ts`. */
module Utils {
  import opened Base
  import opened JsText

  // ---------------------------------------------------------------------
  // getDiscountPercentage

  /** What `getDiscountPercentage` returns: `null`, a whole percentage, or a
      non-finite number (a discount on a zero price divides by zero). */
  datatype Percentage = NoDiscount | Percent(value: int) | NotFinite

  /** `Math.round`: the nearest integer, halves rounded up. */
  function Round(x: real): (r: int)
    ensures r as real - 0.5 <= x < r as real + 0.5
  {
    (x + 0.5).Floor
  }

  /** The exact discount ratio in percent, `(price - discountPrice) / price * 100`. */
  function DiscountRatio(price: int, discountPrice: int): real
    requires price != 0
  {
    (price - discountPrice) as real / price as real * 100.0
  }

  /** `getDiscountPercentage(price, discountPrice)` */
  function GetDiscountPercentage(price: int, discountPrice: Option<int>): (r: Percentage)
    ensures r == NoDiscount <==> discountPrice == None || discountPrice == Some(0)
    ensures discountPrice.Some? && discountPrice.value != 0 ==> (r.NotFinite? <==> price == 0)
    ensures r.Percent? ==>
      (price != 0 && r.value as real - 0.5 <= DiscountRatio(price, discountPrice.value) < r.value as real + 0.5)
  {
    if discountPrice == None || discountPrice.value == 0 then NoDiscount
    else if price == 0 then NotFinite
    else Percent(Round(DiscountRatio(price, discountPrice.value)))
  }

  /** A real discount (0 < discountPrice <= price) is between 0 and 100
      percent, and no discount at all (discountPrice == price) is 0. */
  lemma DiscountPercentageBounds(price: int, discountPrice: int)
    requires 0 < discountPrice <= price
    ensures var r := GetDiscountPercentage(price, Some(discountPrice));
      r.Percent? && 0 <= r.value <= 100
      && (discountPrice == price ==> r.value == 0)
  {
    var x := DiscountRatio(price, discountPrice);
    assert 0.0 <= (price - discountPrice) as real / price as real < 1.0;
    assert 0.0 <= x < 100.0;
    if discountPrice == price {
      assert x == 0.0;
    }
  }

  // ---------------------------------------------------------------------
  // generateAvatarInitials

  /** A JavaScript value met while building initials: `undefined` (reading
      index 0 of an empty string) or a string. */
  datatype JsValue = Undefined | Str(s: string)

  /** `s[0]` */
  function FirstChar(s: string): JsValue
  {
    if s == [] then Undefined else Str(s[..1])
  }

  /** The `+` of two such values, as a string; `undefined + undefined` is the
      number `NaN`, which has no `toUpperCase`, so there is no string. */
  function Concat(a: JsValue, b: JsValue): Option<string>
  {
    match (a, b)
    case (Str(x), Str(y)) => Some(x + y)
    case (Undefined, Str(y)) => Some("undefined" + y)
    case (Str(x), Undefined) => Some(x + "undefined")
    case (Undefined, Undefined) => None
  }

  /** `generateAvatarInitials(name)`; `None` stands for the `TypeError`
      raised when both leading pieces of the name are empty, which needs a
      leading space. Initials never hold a lower-case letter. */
  function GenerateAvatarInitials(name: string): (r: Option<string>)
    ensures name == "" ==> r == Some("XX")
    ensures r.Some? ==> forall i :: 0 <= i < |r.value| ==> !IsLower(r.value[i])
    ensures r.None? ==> name != "" && name[0] == ' '
  {
    if name == "" then Some("XX")
    else
      var parts := Split(name, ' ');
      if |parts| == 1 then
        Some(ToUpperCase(parts[0][..if |parts[0]| < 2 then |parts[0]| else 2]))
      else
        match Concat(FirstChar(parts[0]), FirstChar(parts[1]))
        case None => None
        case Some(t) => Some(ToUpperCase(t))
  }

  /** The empty name gives 'XX'; a one-word name gives its first (at most
      two) characters in upper case. */
  lemma AvatarInitialsOneWord(name: string)
    requires ' ' !in name
    ensures name == "" ==> GenerateAvatarInitials(name) == Some("XX")
    ensures name != "" ==>
      (GenerateAvatarInitials(name) == Some(ToUpperCase(name[..if |name| < 2 then |name| else 2])))
  {
    SplitSingle(name, ' ');
  }

  /** The two words before and after the first space. */
  lemma {:induction false} SplitAtFirstSpace(w1: string, rest: string)
    requires ' ' !in w1
    ensures |Split(w1 + " " + rest, ' ')| >= 2
    ensures Split(w1 + " " + rest, ' ')[0] == w1
    ensures Split(w1 + " " + rest, ' ')[1..] == Split(rest, ' ')
    decreases |w1|
  {
    if w1 == [] {
      assert w1 + " " + rest == [' '] + rest;
      assert (w1 + " " + rest)[1..] == rest;
    } else {
      SplitAtFirstSpace(w1[1..], rest);
      assert (w1 + " " + rest)[1..] == w1[1..] + " " + rest;
    }
  }

  /** A name whose first two space-separated words are non-empty gives the
      two upper-cased first letters. */
  lemma AvatarInitialsTwoWords(w1: string, w2: string, tail: string)
    requires ' ' !in w1 && ' ' !in w2 && w1 != [] && w2 != []
    ensures GenerateAvatarInitials(w1 + " " + w2 + tail)
      == Some(ToUpperCase([w1[0], w2[0]]))
  {
    var name := w1 + " " + w2 + tail;
    assert name == w1 + " " + (w2 + tail);
    SplitAtFirstSpace(w1, w2 + tail);
    SplitFirstPiece(w2, tail);
    var parts := Split(name, ' ');
    assert parts[0] == w1;
    assert parts[1] == Split(w2 + tail, ' ')[0];
    assert FirstChar(parts[0]) == Str([w1[0]]);
    assert FirstChar(parts[1]) == Str([w2[0]]);
    assert [w1[0]] + [w2[0]] == [w1[0], w2[0]];
    assert Concat(Str([w1[0]]), Str([w2[0]])) == Some([w1[0], w2[0]]);
  }

  /** The first piece of a split starts with the first characters of a
      space-free prefix. */
  lemma {:induction false} SplitFirstPiece(w: string, tail: string)
    requires ' ' !in w && w != []
    ensures |Split(w + tail, ' ')[0]| >= 1 && Split(w + tail, ' ')[0][0] == w[0]
  {
    assert (w + tail)[0] == w[0];
  }

  /** The `undefined` quirk: a name with a single leading space before a
      word puts the word "UNDEFINED" and the word's first letter into the
      initials. */
  lemma AvatarInitialsOfLeadingSpace(w: string, tail: string)
    requires ' ' !in w && w != []
    ensures GenerateAvatarInitials(" " + w + tail) == Some(ToUpperCase("undefined" + [w[0]]))
  {
    var name := " " + w + tail;
    assert name == "" + " " + (w + tail);
    SplitAtFirstSpace("", w + tail);
    SplitFirstPiece(w, tail);
    var parts := Split(name, ' ');
    assert parts[0] == "";
    assert parts[1] == Split(w + tail, ' ')[0];
    assert FirstChar(parts[1]) == Str([w[0]]);
  }

  /** A name that starts with a space and has no word right after it (a
      lone space, or two spaces) raises the `TypeError`. */
  lemma AvatarInitialsOfTwoEmptyPieces(rest: string)
    requires rest == [] || rest[0] == ' '
    ensures GenerateAvatarInitials(" " + rest) == None
  {
    var name := " " + rest;
    assert name == "" + " " + rest;
    SplitAtFirstSpace("", rest);
    var parts := Split(name, ' ');
    assert parts[0] == "";
    if rest != [] {
      assert Split(rest, ' ') == [""] + Split(rest[1..], ' ');
    }
    assert parts[1] == "";
  }

  // ---------------------------------------------------------------------
  // truncateText

  /** `text.slice(0, end)` for an end below the length: a negative end
      counts back from the end of the text. */
  function SliceTo(text: string, end: int): (r: string)
    requires end < |text|
    ensures StartsWith(text, r)
    ensures end >= 0 ==> |r| == end
    ensures end < 0 ==> |r| == (if |text| + end > 0 then |text| + end else 0)
  {
    if end >= 0 then text[..end] else if |text| + end > 0 then text[..|text| + end] else ""
  }

  /** `truncateText(text, maxLength)` */
  function TruncateText(text: string, maxLength: int): (r: string)
    ensures |text| <= maxLength ==> r == text
    ensures 0 <= maxLength < |text| ==> r == text[..maxLength] + "..." && |r| == maxLength + 3
    ensures maxLength < |text| ==> |r| >= 3 && StartsWith(text, r[..|r| - 3]) && r[|r| - 3..] == "..."
  {
    if |text| <= maxLength then text else SliceTo(text, maxLength) + "..."
  }

  // ---------------------------------------------------------------------
  // slugify

  /** The `\w` class: ASCII letters, digits and '_'. */
  predicate IsWordChar(c: char)
  {
    IsUpper(c) || IsLower(c) || IsDigit(c) || c == '_'
  }

  predicate IsDash(c: char) { c == '-' }

  predicate IsWordOrDash(c: char) { IsWordChar(c) || c == '-' }

  /** The characters a slug may hold. */
  predicate IsSlugChar(c: char) { IsLower(c) || IsDigit(c) || c == '_' || c == '-' }

  /** `s` with its leading run of `p`-characters removed. */
  function SkipWhile(s: string, p: char -> bool): (r: string)
    ensures |r| <= |s| && r == s[|s| - |r|..]
    ensures r != [] ==> !p(r[0])
    ensures (s == [] || !p(s[0])) ==> r == s
  {
    if s != [] && p(s[0]) then SkipWhile(s[1..], p) else s
  }

  /** `s` with its trailing run of '-' removed. */
  function DropTrailingDashes(s: string): (r: string)
    ensures |r| <= |s| && r == s[..|r|]
    ensures r != [] ==> r[|r| - 1] != '-'
    ensures (s == [] || s[|s| - 1] != '-') ==> r == s
  {
    if s != [] && s[|s| - 1] == '-' then DropTrailingDashes(s[..|s| - 1]) else s
  }

  /** Every maximal run of `p`-characters replaced by the single character
      `c`: `replace(/P+/g, c)`. */
  function ReplaceRuns(s: string, p: char -> bool, c: char): (r: string)
    ensures s == [] <==> r == []
    ensures forall i :: 0 <= i < |r| ==> r[i] == c || r[i] in s
    ensures s != [] && !p(s[0]) ==> r[0] == s[0]
    decreases |s|
  {
    if s == [] then []
    else if p(s[0]) then [c] + ReplaceRuns(SkipWhile(s[1..], p), p, c)
    else [s[0]] + ReplaceRuns(s[1..], p, c)
  }

  /** The stages of `slugify`, in order. */
  function Lowered(text: string): string { ToLowerCase(text) }
  function Dashed(s: string): string { ReplaceRuns(s, IsJsSpace, '-') }
  function Stripped(s: string): string { Filter(s, IsWordOrDash) }
  function Collapsed(s: string): string { ReplaceRuns(s, IsDash, '-') }  // `--+` to '-'; a lone '-' stays '-'
  function Trimmed(s: string): string { DropTrailingDashes(SkipWhile(s, IsDash)) }

  /** `slugify(text)`: every result is a slug, with only lower-case
      letters, digits, '_' and '-', no "--", and no '-' at either end. */
  function Slugify(text: string): (r: string)
    ensures IsSlug(r)
  {
    DashedHasNoUpper(text);
    var c := Stripped(Dashed(Lowered(text)));
    StrippedHasSlugChars(Dashed(Lowered(text)));
    CollapsedHasSlugChars(c);
    TrimmedIsSlug(Collapsed(c));
    Trimmed(Collapsed(c))
  }

  /** No two neighbouring characters are both '-'. */
  predicate NoDoubleDash(s: string)
  {
    forall i :: 0 <= i < |s| - 1 ==> !(s[i] == '-' && s[i + 1] == '-')
  }

  /** The shape every `slugify` result has. */
  predicate IsSlug(s: string)
  {
    && (forall i :: 0 <= i < |s| ==> IsSlugChar(s[i]))
    && NoDoubleDash(s)
    && (s != [] ==> s[0] != '-' && s[|s| - 1] != '-')
  }

  /** Replacing runs of dashes leaves no two dashes side by side. */
  /** A character in front of a string without "--" adds none, unless
      both it and the string's first character are dashes. */
  lemma ConsNoDoubleDash(c: char, r: string)
    requires NoDoubleDash(r)
    requires c == '-' && r != [] ==> r[0] != '-'
    ensures NoDoubleDash([c] + r)
  {
    var s := [c] + r;
    forall i | 0 <= i < |s| - 1
      ensures !(s[i] == '-' && s[i + 1] == '-')
    {
      if i > 0 {
        assert s[i] == r[i - 1] && s[i + 1] == r[i];
      }
    }
  }

  lemma {:induction false} CollapsedHasNoDoubleDash(s: string)
    ensures NoDoubleDash(ReplaceRuns(s, IsDash, '-'))
    decreases |s|
  {
    if s != [] {
      if IsDash(s[0]) {
        var t := SkipWhile(s[1..], IsDash);
        CollapsedHasNoDoubleDash(t);
        var r := ReplaceRuns(t, IsDash, '-');
        assert ReplaceRuns(s, IsDash, '-') == ['-'] + r;
        assert r != [] ==> r[0] == t[0] && t[0] != '-';
        ConsNoDoubleDash('-', r);
      } else {
        CollapsedHasNoDoubleDash(s[1..]);
        assert ReplaceRuns(s, IsDash, '-') == [s[0]] + ReplaceRuns(s[1..], IsDash, '-');
        ConsNoDoubleDash(s[0], ReplaceRuns(s[1..], IsDash, '-'));
      }
    }
  }

  /** Replacing runs changes nothing when every `p`-character is already
      `c` and stands alone. */
  lemma {:induction false} ReplaceRunsNoop(s: string, p: char -> bool, c: char)
    requires forall i :: 0 <= i < |s| && p(s[i]) ==> s[i] == c
    requires forall i :: 0 <= i < |s| - 1 ==> !(p(s[i]) && p(s[i + 1]))
    ensures ReplaceRuns(s, p, c) == s
    decreases |s|
  {
    if s != [] {
      ReplaceRunsNoop(s[1..], p, c);
      if p(s[0]) {
        assert SkipWhile(s[1..], p) == s[1..];
      }
    }
  }

  /** After lower-casing and dashing no upper-case letter is left. */
  lemma DashedHasNoUpper(text: string)
    ensures forall i :: 0 <= i < |Dashed(Lowered(text))| ==> !IsUpper(Dashed(Lowered(text))[i])
  {
    var a := Lowered(text);
    var b := Dashed(a);
    forall i | 0 <= i < |b|
      ensures !IsUpper(b[i])
    {
      if b[i] != '-' {
        var j :| 0 <= j < |a| && a[j] == b[i];
      }
    }
  }

  /** Stripping a string with no upper-case letter leaves only slug characters. */
  lemma StrippedHasSlugChars(b: string)
    requires forall i :: 0 <= i < |b| ==> !IsUpper(b[i])
    ensures forall i :: 0 <= i < |Stripped(b)| ==> IsSlugChar(Stripped(b)[i])
  {
    var c := Stripped(b);
    forall i | 0 <= i < |c|
      ensures IsSlugChar(c[i])
    {
      var j :| 0 <= j < |b| && b[j] == c[i];
    }
  }

  /** Collapsing keeps a string of slug characters one, with no "--". */
  lemma CollapsedHasSlugChars(c: string)
    requires forall i :: 0 <= i < |c| ==> IsSlugChar(c[i])
    ensures forall i :: 0 <= i < |Collapsed(c)| ==> IsSlugChar(Collapsed(c)[i])
    ensures NoDoubleDash(Collapsed(c))
  {
    var d := Collapsed(c);
    forall i | 0 <= i < |d|
      ensures IsSlugChar(d[i])
    {
      if d[i] != '-' {
        var j :| 0 <= j < |c| && c[j] == d[i];
      }
    }
    CollapsedHasNoDoubleDash(c);
  }

  /** A suffix of a string of slug characters without "--" is one too. */
  lemma SuffixKeepsSlugChars(d: string, e: string)
    requires forall i :: 0 <= i < |d| ==> IsSlugChar(d[i])
    requires NoDoubleDash(d)
    requires |e| <= |d| && e == d[|d| - |e|..]
    ensures forall i :: 0 <= i < |e| ==> IsSlugChar(e[i])
    ensures NoDoubleDash(e)
  {
    var off := |d| - |e|;
    forall i | 0 <= i < |e|
      ensures e[i] == d[off + i]
    {
    }
  }

  /** A prefix of a string of slug characters without "--" is one too. */
  lemma PrefixKeepsSlugChars(e: string, f: string)
    requires forall i :: 0 <= i < |e| ==> IsSlugChar(e[i])
    requires NoDoubleDash(e)
    requires |f| <= |e| && f == e[..|f|]
    ensures forall i :: 0 <= i < |f| ==> IsSlugChar(f[i])
    ensures NoDoubleDash(f)
  {
    forall i | 0 <= i < |f|
      ensures f[i] == e[i]
    {
    }
  }

  /** Trimming dashes off both ends of such a string gives a slug. */
  lemma TrimmedIsSlug(d: string)
    requires forall i :: 0 <= i < |d| ==> IsSlugChar(d[i])
    requires NoDoubleDash(d)
    ensures IsSlug(Trimmed(d))
  {
    var e := SkipWhile(d, IsDash);
    SuffixKeepsSlugChars(d, e);
    var f := DropTrailingDashes(e);
    PrefixKeepsSlugChars(e, f);
    if f != [] {
      assert f[0] == e[0] && !IsDash(e[0]);
    }
  }

  /** A slug is left alone by `slugify`. */
  lemma SlugifyFixesSlugs(s: string)
    requires IsSlug(s)
    ensures Slugify(s) == s
  {
    LowerCaseFixesLower(s);
    assert Lowered(s) == s;
    ReplaceRunsNoop(s, IsJsSpace, '-');
    assert Dashed(s) == s;
    FilterKeepsAll(s, IsWordOrDash);
    assert Stripped(s) == s;
    ReplaceRunsNoop(s, IsDash, '-');
    assert Collapsed(s) == s;
    assert SkipWhile(s, IsDash) == s;
  }

  /** `slugify` is idempotent. */
  lemma SlugifyIdempotent(text: string)
    ensures Slugify(Slugify(text)) == Slugify(text)
  {
    SlugifyFixesSlugs(Slugify(text));
  }

  // ---------------------------------------------------------------------
  // getStockStatusText and getStockStatusColor

  /** The three stock tiers both helpers distinguish. */
  datatype StockTier = InStock | LowStock | OutOfStock

  /** The thresholds: more than 10 in stock, 1 to 10, none. */
  function TierOf(stock: int): StockTier
  {
    if stock > 10 then InStock else if stock > 0 then LowStock else OutOfStock
  }

  /** `getStockStatusText(stockQuantity)`: the text announces the tier of
      the stock level, and a low level is spelled out. */
  function GetStockStatusText(stockQuantity: int): (r: string)
    ensures TierOfText(r) == TierOf(stockQuantity)
    ensures TierOf(stockQuantity) == LowStock ==> r == "Only " + IntToString(stockQuantity) + " left"
  {
    if stockQuantity > 10 then "In Stock"
    else if stockQuantity > 0 then
      LowStockTextIsLow(stockQuantity);
      "Only " + IntToString(stockQuantity) + " left"
    else "Out of Stock"
  }

  /** `getStockStatusColor(stockQuantity)`: the colour marks the tier of
      the stock level. */
  function GetStockStatusColor(stockQuantity: int): (r: string)
    ensures TierOfColor(r) == TierOf(stockQuantity)
    ensures stockQuantity > 10 ==> r == "text-success"
    ensures 0 < stockQuantity <= 10 ==> r == "text-warning"
    ensures stockQuantity <= 0 ==> r == "text-error"
  {
    if stockQuantity > 10 then "text-success"
    else if stockQuantity > 0 then "text-warning"
    else "text-error"
  }

  /** The tier a status text announces. */
  function TierOfText(text: string): StockTier
  {
    if text == "In Stock" then InStock else if text == "Out of Stock" then OutOfStock else LowStock
  }

  /** The tier a status colour marks. */
  function TierOfColor(color: string): StockTier
  {
    if color == "text-success" then InStock else if color == "text-error" then OutOfStock else LowStock
  }

  /** The spelled-out low-stock text is read as the low tier. */
  lemma LowStockTextIsLow(n: int)
    requires 0 < n <= 10
    ensures TierOfText("Only " + IntToString(n) + " left") == LowStock
  {
    var t := "Only " + IntToString(n) + " left";
    assert t[1] == 'n';
    assert "In Stock"[1] == 'n' && "In Stock"[0] == 'I' && t[0] == 'O';
    assert "Out of Stock"[1] == 'u';
  }

  /** The text and the colour of a stock level always name the same tier. */
  lemma StockTextAndColorAgree(stockQuantity: int)
    ensures TierOfText(GetStockStatusText(stockQuantity)) == TierOfColor(GetStockStatusColor(stockQuantity))
  {
  }
}
