/** nft_renumbering.py: the offline script that copies one token's image and metadata
    to every number of an inclusive range, rewriting the metadata's `name`, `image` and
    `edition` for each number. */
module Renumbering {
  import opened Optional
  import opened Strings

  /** A JSON value of the metadata: a string, a number, or anything else. */
  datatype Value = Str(s: string) | Num(n: int) | Other

  type Metadata = map<string, Value>

  /** `'burn' if 'vnft-a' in base_dir else 'mint'`. */
  function NftType(baseDir: string): (r: string)
    ensures r == "burn" <==> Contains(baseDir, "vnft-a")
    ensures r == "burn" || r == "mint"
  {
    if Contains(baseDir, "vnft-a") then "burn" else "mint"
  }

  /** `\w` on ASCII text: letters, digits and the underscore. */
  predicate IsWordChar(c: char) {
    ('a' <= c <= 'z') || ('A' <= c <= 'Z') || IsDigit(c) || c == '_'
  }

  predicate AllWord(s: string) {
    forall i :: 0 <= i < |s| ==> IsWordChar(s[i])
  }

  /** The length of the longest run of word characters at the start of `s`. */
  function WordRun(s: string): (r: nat)
    ensures r <= |s| && AllWord(s[..r])
    ensures r < |s| ==> !IsWordChar(s[r])
    decreases |s|
  {
    if s != [] && IsWordChar(s[0]) then
      var k := WordRun(s[1..]);
      assert s[..k + 1] == [s[0]] + s[1..][..k];
      k + 1
    else 0
  }

  /** The length of the longest run of decimal digits at the start of `s`. */
  function DigitRun(s: string): (r: nat)
    ensures r <= |s| && forall i :: 0 <= i < r ==> IsDigit(s[i])
    ensures r < |s| ==> !IsDigit(s[r])
    decreases |s|
  {
    if s != [] && IsDigit(s[0]) then 1 + DigitRun(s[1..]) else 0
  }

  lemma {:induction false} WordRunOf(w: string, rest: string)
    requires AllWord(w) && (rest == [] || !IsWordChar(rest[0]))
    ensures WordRun(w + rest) == |w|
    decreases |w|
  {
    if w != [] {
      assert (w + rest)[1..] == w[1..] + rest;
      WordRunOf(w[1..], rest);
    } else {
      assert w + rest == rest;
    }
  }

  lemma {:induction false} DigitRunOf(d: string, rest: string)
    requires (forall i :: 0 <= i < |d| ==> IsDigit(d[i])) && (rest == [] || !IsDigit(rest[0]))
    ensures DigitRun(d + rest) == |d|
    decreases |d|
  {
    if d != [] {
      assert (d + rest)[1..] == d[1..] + rest;
      DigitRunOf(d[1..], rest);
    } else {
      assert d + rest == rest;
    }
  }

  // ----- the name -----

  /** `re.match(r'(nft-\w+)#(\d+)', name)`: the first group when the name starts with
      "nft-", a run of word characters, "#" and a digit. The run stops at the first
      character that is not a word character, so it must stop at the "#". */
  function NameMatch(name: string): (r: Option<string>)
    ensures r.Some? ==> |r.value| > 4 && r.value[..4] == "nft-" && AllWord(r.value[4..])
    ensures r.Some? ==> (|name| > |r.value| + 1 && name[..|r.value|] == r.value &&
      name[|r.value|] == '#' && IsDigit(name[|r.value| + 1]))
  {
    if |name| >= 4 && name[..4] == "nft-" then
      var k := WordRun(name[4..]);
      if k >= 1 && 4 + k + 1 < |name| && name[4 + k] == '#' && IsDigit(name[4 + k + 1]) then
        assert name[..4 + k][4..] == name[4..][..k];
        Some(name[..4 + k])
      else None
    else None
  }

  /** The new name for number `n`: the matched prefix, or `nft-<type>`, then "#" and
      the number; any text after the old number is dropped. */
  function RenameName(name: string, nftType: string, n: int): (r: string)
    ensures NameMatch(name).Some? ==> r == NameMatch(name).value + "#" + IntToString(n)
    ensures NameMatch(name).None? ==> r == "nft-" + nftType + "#" + IntToString(n)
  {
    match NameMatch(name)
    case Some(prefix) => prefix + "#" + IntToString(n)
    case None => "nft-" + nftType + "#" + IntToString(n)
  }

  /** A name of the form `nft-<word>#<number>` matches with `nft-<word>` as its group. */
  lemma NameMatchOf(word: string, n: nat)
    requires |word| > 0 && AllWord(word)
    ensures NameMatch("nft-" + word + "#" + NatToString(n)) == Some("nft-" + word)
  {
    var name := "nft-" + word + "#" + NatToString(n);
    assert name[..4] == "nft-";
    assert name[4..] == word + ("#" + NatToString(n));
    WordRunOf(word, "#" + NatToString(n));
    assert name[4 + |word|] == '#';
    assert name[4 + |word| + 1] == NatToString(n)[0];
    assert name[..4 + |word|] == "nft-" + word;
  }

  /** Every name that starts with "nft-", a word, "#" and a digit matches, whatever
      follows the digit; the group is "nft-" and the word. */
  lemma NameMatchConverse(word: string, d: char, rest: string)
    requires |word| > 0 && AllWord(word) && IsDigit(d)
    ensures NameMatch("nft-" + word + "#" + [d] + rest) == Some("nft-" + word)
  {
    var name := "nft-" + word + "#" + [d] + rest;
    assert name[..4] == "nft-";
    assert name[4..] == word + ("#" + [d] + rest);
    WordRunOf(word, "#" + [d] + rest);
    assert name[4 + |word|] == '#';
    assert name[4 + |word| + 1] == d;
    assert name[..4 + |word|] == "nft-" + word;
  }

  /** Renaming an already renamed name (with a non-negative number) gives what renaming
      the original would: running the script on its own output changes only numbers. */
  lemma RenameTwice(name: string, nftType: string, m: nat, n: int)
    requires |nftType| > 0 && AllWord(nftType)
    ensures RenameName(RenameName(name, nftType, m), nftType, n) == RenameName(name, nftType, n)
  {
    match NameMatch(name)
    case Some(prefix) =>
      assert prefix == "nft-" + prefix[4..];
      NameMatchOf(prefix[4..], m);
    case None =>
      NameMatchOf(nftType, m);
  }

  // ----- the image -----

  const ImageHost: string := "https://0xmavillain.com/data/nft/"

  /** The shape of the image pattern's first group for a given host: the host, a
      non-empty run of word characters, and "/images/". */
  predicate ImageGroup(g: string, host: string) {
    |g| > |host| + 8 && g[..|host|] == host && g[|g| - 8..] == "/images/" && AllWord(g[|host|..|g| - 8])
  }

  /** The end of the pattern: a run of digits and ".png". */
  predicate NumberThenPng(u: string) {
    var k := DigitRun(u);
    k >= 1 && OccursAt(u, ".png", k)
  }

  /** The pattern after the host: a run of word characters and "/images/", followed by
      the end of the pattern. The result is the length of the part before the digits. */
  function GroupTail(t: string): (r: Option<nat>)
    ensures r.Some? ==> 8 < r.value <= |t| && AllWord(t[..r.value - 8]) && t[r.value - 8..r.value] == "/images/"
  {
    var w := WordRun(t);
    if w >= 1 && OccursAt(t, "/images/", w) && NumberThenPng(t[w + 8..]) then Some(w + 8) else None
  }

  /** The image pattern tried at index `p`, with `host` standing for the escaped URL at
      its start. The result is the first group, everything before the digits. */
  function ImageMatchAt(s: string, p: nat, host: string): (r: Option<string>)
    ensures r.Some? ==> p + |r.value| <= |s| && s[p..p + |r.value|] == r.value && ImageGroup(r.value, host)
  {
    if OccursAt(s, host, p) then
      var t := s[p + |host|..];
      match GroupTail(t)
      case Some(e) =>
        var g := s[p..p + |host| + e];
        assert g[..|host|] == s[p..p + |host|];
        assert g[|host|..] == t[..e];
        assert g[|g| - 8..] == t[e - 8..e];
        assert g[|host|..|g| - 8] == t[..e - 8];
        Some(g)
      case None => None
    else None
  }

  /** `re.search`: the match at the first index where the pattern matches. */
  function ImageSearch(s: string, p: nat, host: string): (r: Option<string>)
    requires p <= |s|
    ensures r.Some? ==> ImageGroup(r.value, host) && exists i :: p <= i <= |s| && ImageMatchAt(s, i, host) == r
    ensures r.None? ==> forall i :: p <= i <= |s| ==> ImageMatchAt(s, i, host).None?
    decreases |s| - p
  {
    match ImageMatchAt(s, p, host)
    case Some(g) => Some(g)
    case None => if p == |s| then None else ImageSearch(s, p + 1, host)
  }

  /** The pattern matches at no index of `[p, i)`. */
  predicate NoMatchBefore(s: string, p: nat, i: nat, host: string) {
    forall j :: p <= j < i ==> ImageMatchAt(s, j, host).None?
  }

  /** The first index from `p` at which the pattern matches, or `|s|` when none does. */
  function SearchIndex(s: string, p: nat, host: string): (i: nat)
    requires p <= |s|
    ensures p <= i <= |s|
    decreases |s| - p
  {
    if ImageMatchAt(s, p, host).Some? || p == |s| then p else SearchIndex(s, p + 1, host)
  }

  /** The match `search` returns is the leftmost one: it is the attempt at
      `SearchIndex`, and the pattern matches at no earlier index from `p`. */
  lemma {:induction false} ImageSearchLeftmost(s: string, p: nat, host: string)
    requires p <= |s|
    ensures ImageSearch(s, p, host) == ImageMatchAt(s, SearchIndex(s, p, host), host)
    ensures NoMatchBefore(s, p, SearchIndex(s, p, host), host)
    decreases |s| - p
  {
    if ImageMatchAt(s, p, host).None? && p < |s| {
      ImageSearchLeftmost(s, p + 1, host);
    }
  }

  /** The new image URL for number `n`, for the pattern with the given host: the
      matched URL with the number replaced (any text around it dropped), or the default
      URL of the type. */
  function RenameImageAt(host: string, image: string, nftType: string, n: int): (r: string)
    ensures ImageSearch(image, 0, host).Some? ==> r == ImageSearch(image, 0, host).value + IntToString(n) + ".png"
    ensures ImageSearch(image, 0, host).None? ==> r == host + nftType + "/images/" + IntToString(n) + ".png"
  {
    match ImageSearch(image, 0, host)
    case Some(prefix) => prefix + IntToString(n) + ".png"
    case None => host + nftType + "/images/" + IntToString(n) + ".png"
  }

  /** The image rewrite of the script. */
  function RenameImage(image: string, nftType: string, n: int): string {
    RenameImageAt(ImageHost, image, nftType, n)
  }

  lemma NumberThenPngOf(n: nat)
    ensures NumberThenPng(NatToString(n) + ".png")
  {
    var u := NatToString(n) + ".png";
    DigitRunOf(NatToString(n), ".png");
    assert u[|NatToString(n)|..|NatToString(n)| + 4] == ".png";
  }

  lemma GroupTailOf(word: string, tail: string)
    requires |word| > 0 && AllWord(word) && NumberThenPng(tail)
    ensures GroupTail(word + "/images/" + tail) == Some(|word| + 8)
  {
    var t := word + "/images/" + tail;
    assert t == word + ("/images/" + tail);
    WordRunOf(word, "/images/" + tail);
    assert t[|word|..|word| + 8] == "/images/";
    assert t[|word| + 8..] == tail;
  }

  lemma MatchAtStartOf(host: string, rest: string, e: nat)
    requires GroupTail(rest) == Some(e)
    ensures ImageMatchAt(host + rest, 0, host) == Some(host + rest[..e])
  {
    var s := host + rest;
    assert s[..|host|] == host;
    assert s[|host|..] == rest;
    assert s[0..|host| + e] == host + rest[..e];
  }

  /** The tail after the host: a word, "/images/", digits and ".png", with any text
      after it. */
  lemma TailOf(word: string, digits: string, rest: string)
    requires |word| > 0 && AllWord(word)
    requires |digits| > 0 && forall i :: 0 <= i < |digits| ==> IsDigit(digits[i])
    ensures GroupTail(word + "/images/" + digits + ".png" + rest) == Some(|word| + 8)
  {
    var tail := digits + ".png" + rest;
    assert tail == digits + (".png" + rest);
    DigitRunOf(digits, ".png" + rest);
    assert tail[|digits|..|digits| + 4] == ".png";
    assert word + "/images/" + digits + ".png" + rest == word + "/images/" + tail;
    GroupTailOf(word, tail);
  }

  /** A well-formed tail after the host at index `|pre|` is matched there. */
  lemma MatchAtOf(pre: string, host: string, t: string, e: nat)
    requires GroupTail(t) == Some(e)
    ensures ImageMatchAt(pre + host + t, |pre|, host) == Some(host + t[..e])
  {
    var s := pre + host + t;
    assert s[|pre|..|pre| + |host|] == host;
    assert s[|pre| + |host|..] == t;
    assert s[|pre|..|pre| + |host| + e] == host + t[..e];
  }

  /** Every occurrence of the whole pattern at index `|pre|` is matched there, whatever
      text precedes or follows it; the group is the host, the word and "/images/". */
  lemma ImageMatchAtConverse(pre: string, host: string, word: string, digits: string, rest: string)
    requires |word| > 0 && AllWord(word)
    requires |digits| > 0 && forall i :: 0 <= i < |digits| ==> IsDigit(digits[i])
    ensures ImageMatchAt(pre + host + (word + "/images/" + digits + ".png" + rest), |pre|, host) ==
      Some(host + word + "/images/")
  {
    var t := word + "/images/" + digits + ".png" + rest;
    assert t[..|word| + 8] == word + "/images/";
    TailOf(word, digits, rest);
    MatchAtOf(pre, host, t, |word| + 8);
    assert host + t[..|word| + 8] == host + word + "/images/";
  }

  /** Host followed by a well-formed tail: the search finds the match at the start. */
  lemma SearchFindsStart(s: string, host: string, rest: string, e: nat)
    requires s == host + rest && GroupTail(rest) == Some(e)
    ensures ImageSearch(s, 0, host) == Some(host + rest[..e])
  {
    MatchAtStartOf(host, rest, e);
  }

  lemma RegroupJoin(a: string, b: string, c: string, d: string, e: string)
    ensures a + b + c + d + e == a + (b + c + (d + e))
    ensures a + (b + c + (d + e))[..|b| + |c|] == a + b + c
  {
    assert (b + c + (d + e))[..|b| + |c|] == b + c;
  }

  /** A URL of the form host, word, "/images/", number, ".png" matches at its start with
      everything before the number as its group. */
  lemma ImageMatchOf(host: string, word: string, n: nat)
    requires |word| > 0 && AllWord(word)
    ensures ImageSearch(host + word + "/images/" + NatToString(n) + ".png", 0, host) ==
      Some(host + word + "/images/")
  {
    var mid := "/images/";
    var tail := NatToString(n) + ".png";
    var rest := word + mid + tail;
    var s := host + word + mid + NatToString(n) + ".png";
    assert s == host + rest && host + rest[..|word| + |mid|] == host + word + mid by {
      RegroupJoin(host, word, mid, NatToString(n), ".png");
    }
    assert GroupTail(rest) == Some(|word| + 8) by {
      NumberThenPngOf(n);
      GroupTailOf(word, tail);
    }
    SearchFindsStart(s, host, rest, |word| + 8);
  }

  /** Re-imaging an already renumbered URL (with a non-negative number) gives what
      renumbering the original would, whatever the host. */
  lemma RenameImageAtTwice(host: string, image: string, nftType: string, m: nat, n: int)
    requires |nftType| > 0 && AllWord(nftType)
    ensures RenameImageAt(host, RenameImageAt(host, image, nftType, m), nftType, n) ==
      RenameImageAt(host, image, nftType, n)
  {
    var g := FirstGroup(host, image, nftType);
    var word := g[|host|..|g| - 8];
    FirstGroupShape(host, image, nftType);
    var first := RenameImageAt(host, image, nftType, m);
    assert first == g + NatToString(m) + ".png";
    assert ImageSearch(first, 0, host) == Some(g) by {
      ImageMatchOf(host, word, m);
    }
    assert RenameImageAt(host, first, nftType, n) == g + IntToString(n) + ".png";
  }

  /** The part of the rewritten URL before the number. */
  function FirstGroup(host: string, image: string, nftType: string): (g: string) {
    match ImageSearch(image, 0, host)
    case Some(prefix) => prefix
    case None => host + nftType + "/images/"
  }

  lemma FirstGroupShape(host: string, image: string, nftType: string)
    requires |nftType| > 0 && AllWord(nftType)
    ensures var g := FirstGroup(host, image, nftType);
      ImageGroup(g, host) && g == host + g[|host|..|g| - 8] + "/images/"
    ensures forall n :: RenameImageAt(host, image, nftType, n) == FirstGroup(host, image, nftType) + IntToString(n) + ".png"
  {
    var g := FirstGroup(host, image, nftType);
    assert ImageGroup(g, host) by {
      if ImageSearch(image, 0, host).None? {
        GroupOf(host, nftType);
      }
    }
    GroupParts(g, host);
  }

  lemma GroupOf(host: string, word: string)
    requires |word| > 0 && AllWord(word)
    ensures ImageGroup(host + word + "/images/", host)
  {
    var g := host + word + "/images/";
    assert g[..|host|] == host;
    assert g[|host|..|g| - 8] == word;
    assert g[|g| - 8..] == "/images/";
  }

  lemma GroupParts(g: string, host: string)
    requires ImageGroup(g, host)
    ensures g == host + g[|host|..|g| - 8] + "/images/"
  {
    assert g == g[..|host|] + g[|host|..|g| - 8] + g[|g| - 8..];
  }

  lemma RenameImageTwice(image: string, nftType: string, m: nat, n: int)
    requires |nftType| > 0 && AllWord(nftType)
    ensures RenameImage(RenameImage(image, nftType, m), nftType, n) == RenameImage(image, nftType, n)
  {
    RenameImageAtTwice(ImageHost, image, nftType, m, n);
  }

  // ----- one metadata file -----

  /** The metadata written for number `n`: a copy of the original with `name` and
      `image` rewritten when present, and `edition` set to `n` when present. `None`
      stands for the TypeError raised when `name` or `image` holds something other than
      a string. */
  function Renumber(original: Metadata, nftType: string, n: int): (r: Option<Metadata>)
    ensures r.None? <==> ("name" in original && !original["name"].Str?) ||
                         ("image" in original && !original["image"].Str?)
    ensures r.Some? ==> r.value.Keys == original.Keys
    ensures r.Some? ==> forall k :: k in original && k != "name" && k != "image" && k != "edition" ==>
      r.value[k] == original[k]
    ensures r.Some? && "name" in original ==> r.value["name"] == Str(RenameName(original["name"].s, nftType, n))
    ensures r.Some? && "image" in original ==> r.value["image"] == Str(RenameImage(original["image"].s, nftType, n))
    ensures r.Some? && "edition" in original ==> r.value["edition"] == Num(n)
  {
    if "name" in original && !original["name"].Str? then None
    else if "image" in original && !original["image"].Str? then None
    else Some(map k | k in original :: Field(original, k, nftType, n))
  }

  /** The value written under key `k` of a copy whose name and image are strings. */
  function Field(original: Metadata, k: string, nftType: string, n: int): Value
    requires k in original
    requires k == "name" || k == "image" ==> original[k].Str?
  {
    if k == "name" then Str(RenameName(original[k].s, nftType, n))
    else if k == "image" then Str(RenameImage(original[k].s, nftType, n))
    else if k == "edition" then Num(n)
    else original[k]
  }

  /** Renumbering a file the script wrote (with a non-negative number) gives what
      renumbering the original would. */
  lemma RenumberTwice(original: Metadata, nftType: string, m: nat, n: int)
    requires |nftType| > 0 && AllWord(nftType)
    requires Renumber(original, nftType, m).Some?
    ensures Renumber(Renumber(original, nftType, m).value, nftType, n) == Renumber(original, nftType, n)
  {
    var once := Renumber(original, nftType, m).value;
    assert Renumber(once, nftType, n).Some?;
    var twice := Renumber(once, nftType, n).value;
    var direct := Renumber(original, nftType, n).value;
    forall k | k in original
      ensures twice[k] == direct[k]
    {
      FieldTwice(original, k, nftType, m, n);
    }
    assert twice == direct;
  }

  /** One key of a file renumbered twice. */
  lemma FieldTwice(original: Metadata, k: string, nftType: string, m: nat, n: int)
    requires |nftType| > 0 && AllWord(nftType)
    requires Renumber(original, nftType, m).Some? && k in original
    ensures Field(Renumber(original, nftType, m).value, k, nftType, n) == Field(original, k, nftType, n)
  {
    if k == "name" {
      RenameTwice(original[k].s, nftType, m, n);
    } else if k == "image" {
      RenameImageTwice(original[k].s, nftType, m, n);
    }
  }

  // ----- the directory -----

  /** The files `process_directory` writes: image copies and metadata files, each
      tagged with its number. */
  datatype Output = Output(images: seq<int>, metadata: seq<(int, Metadata)>)

  /** The numbers of an inclusive range: `range(start, end + 1)`. */
  function Range(start: int, end: int): (r: seq<int>)
    ensures |r| == if end < start then 0 else end - start + 1
    ensures forall i :: 0 <= i < |r| ==> r[i] == start + i
  {
    seq(if end < start then 0 else end - start + 1, i => start + i)
  }

  /** What the directory holds afterwards when the copy succeeds: one image and one
      metadata file for every number of the range. */
  function Expected(original: Metadata, nftType: string, start: int, end: int): (r: seq<(int, Metadata)>)
    requires forall n :: Renumber(original, nftType, n).Some?
    ensures |r| == |Range(start, end)|
    ensures forall i :: 0 <= i < |r| ==> r[i].0 == start + i && Some(r[i].1) == Renumber(original, nftType, start + i)
  {
    seq(|Range(start, end)|, i requires 0 <= i < |Range(start, end)| =>
      (start + i, Renumber(original, nftType, start + i).value))
  }

  /** `process_directory`. Without the source image or metadata nothing is written. A
      name or image that is not a string raises on the first number, after its image
      copy. Otherwise each number of the range gets its image and its metadata. */
  method ProcessDirectory(baseDir: string, hasImage: bool, hasMetadata: bool, original: Metadata,
                          start: int, end: int) returns (out: Output)
    ensures !hasImage || !hasMetadata ==> out == Output([], [])
    ensures hasImage && hasMetadata && Renumber(original, NftType(baseDir), start).None? ==>
      out == Output(if end < start then [] else [start], [])
    ensures hasImage && hasMetadata && (forall n :: Renumber(original, NftType(baseDir), n).Some?) ==>
      out.images == Range(start, end) && out.metadata == Expected(original, NftType(baseDir), start, end)
  {
    if !hasImage || !hasMetadata {
      return Output([], []);
    }
    var nftType := NftType(baseDir);
    var images: seq<int> := [];
    var written: seq<(int, Metadata)> := [];
    var newNum := start;
    while newNum < end + 1
      invariant start <= newNum || end < start
      invariant end < start ==> newNum == start
      invariant start <= newNum ==> newNum <= end + 1 || end < start
      invariant images == Range(start, newNum - 1)
      invariant Renumber(original, nftType, start).None? ==> newNum == start
      invariant |written| == |images|
      invariant forall i :: 0 <= i < |written| ==>
        written[i].0 == start + i && Some(written[i].1) == Renumber(original, nftType, start + i)
      decreases end + 1 - newNum
    {
      images := images + [newNum];
      var metadata := Renumber(original, nftType, newNum);
      if metadata.None? {
        return Output(images, written);
      }
      written := written + [(newNum, metadata.value)];
      newNum := newNum + 1;
    }
    out := Output(images, written);
  }
}
