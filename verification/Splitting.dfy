/** Splitting a message into what Discord accepts (`discord_app.py`): text into
    batches, large files into parts, many files over several batches, and file
    names made unique. Nothing may get lost on the way. */
module Splitting {
  import opened Options
  import opened Decimals

  // ----- text -----

  function Concat(parts: seq<string>): string {
    if parts == [] then "" else parts[0] + Concat(parts[1..])
  }

  lemma ConcatAppend(parts: seq<string>, last: string)
    ensures Concat(parts + [last]) == Concat(parts) + last
  {
    if parts == [] {
      assert parts + [last] == [last];
    } else {
      assert (parts + [last])[1..] == parts[1..] + [last];
      ConcatAppend(parts[1..], last);
    }
  }

  predicate Separator(c: char) { c == '\n' || c == ' ' }

  /** `rfind` over a window: the last place of a character, or -1. */
  method LastIndexOf(s: string, c: char, lo: nat, hi: nat) returns (i: int)
    requires lo <= hi <= |s|
    ensures i == -1 || (lo <= i < hi && s[i] == c)
    ensures forall j | lo <= j < hi && j > i :: s[j] != c
  {
    i := hi;
    while i > lo
      invariant lo <= i <= hi
      invariant forall j | i <= j < hi :: s[j] != c
    {
      i := i - 1;
      if s[i] == c { return; }
    }
    i := -1;
  }

  /** Where a long text is cut: after its last separator between positions 900
      and 1850, or after 1850 characters when there is none. */
  ghost predicate CutHere(text: string, cut: int)
    requires |text| > 1850
  {
    || (901 <= cut <= 1851 && Separator(text[cut - 1]) && forall j | cut <= j < 1851 :: !Separator(text[j]))
    || (cut == 1850 && forall j | 900 <= j < 1851 :: !Separator(text[j]))
  }

  /** `_stream_content_batches`. */
  method StreamContentBatches(content: string) returns (batches: seq<string>)
    ensures batches != [] && Concat(batches) == content
    ensures forall i | 0 <= i < |batches| :: |batches[i]| <= 1851
    ensures |batches[|batches| - 1]| <= 1850
    ensures forall i | 0 <= i < |batches| - 1 ::
      |batches[i]| == 1850 || (|batches[i]| >= 901 && Separator(batches[i][|batches[i]| - 1]))
    ensures forall i | 0 <= i < |batches| - 1 :: CutHereIn(content, batches, i)
  {
    batches := [];
    var remaining := content;
    while |remaining| > 1850
      invariant Concat(batches) + remaining == content
      invariant forall i | 0 <= i < |batches| :: CutHereIn(content, batches, i)
      decreases |remaining|
    {
      var cut := FindCut(remaining);
      CutsKept(content, batches, remaining[..cut]);
      LastCut(content, batches, remaining, cut);
      batches := batches + [remaining[..cut]];
      remaining := remaining[cut..];
    }
    ConcatAppend(batches, remaining);
    CutsKept(content, batches, remaining);
    ghost var n := |batches|;
    batches := batches + [remaining];
    forall i | 0 <= i < n ensures |batches[i]| <= 1851
      && (|batches[i]| == 1850 || (|batches[i]| >= 901 && Separator(batches[i][|batches[i]| - 1])))
    {
      CutMeans(content, batches, i);
    }
  }

  method FindCut(remaining: string) returns (cut: nat)
    requires |remaining| > 1850
    ensures 0 < cut <= |remaining| && CutHere(remaining, cut)
  {
    var newline := LastIndexOf(remaining, '\n', 900, 1851);
    var space := LastIndexOf(remaining, ' ', 900, 1851);
    var at := if newline > space then newline else space;
    cut := if at < 1 then 1850 else at + 1;
  }

  lemma CutMeans(content: string, batches: seq<string>, i: nat)
    requires i < |batches| && CutHereIn(content, batches, i)
    requires Concat(batches) == content
    ensures |batches[i]| <= 1851
    ensures |batches[i]| == 1850 || (|batches[i]| >= 901 && Separator(batches[i][|batches[i]| - 1]))
  {
    var start := |Concat(batches[..i])|;
    ConcatSplit(batches, i);
    assert content[start..][..|batches[i]|] == batches[i];
  }

  lemma ConcatSplit(batches: seq<string>, i: nat)
    requires i < |batches|
    ensures |Concat(batches[..i])| + |batches[i]| <= |Concat(batches)|
    ensures Concat(batches)[|Concat(batches[..i])|..][..|batches[i]|] == batches[i]
  {
    if i == 0 {
      assert batches[..0] == [];
    } else {
      ConcatSplit(batches[1..], i - 1);
      assert batches[..i][1..] == batches[1..][..i - 1];
      var rest, start := Concat(batches[1..]), |Concat(batches[1..][..i - 1])|;
      assert Concat(batches)[|batches[0]| + start..] == rest[start..];
    }
  }

  lemma CutsKept(content: string, batches: seq<string>, last: string)
    requires forall i | 0 <= i < |batches| :: CutHereIn(content, batches, i)
    ensures forall i | 0 <= i < |batches| :: CutHereIn(content, batches + [last], i)
  {
    forall i | 0 <= i < |batches| ensures CutHereIn(content, batches + [last], i) {
      assert (batches + [last])[..i] == batches[..i];
      assert CutHereIn(content, batches, i);
    }
  }

  lemma LastCut(content: string, batches: seq<string>, remaining: string, cut: nat)
    requires Concat(batches) + remaining == content
    requires |remaining| > 1850 && cut <= |remaining| && CutHere(remaining, cut)
    ensures CutHereIn(content, batches + [remaining[..cut]], |batches|)
    ensures Concat(batches + [remaining[..cut]]) + remaining[cut..] == content
  {
    assert (batches + [remaining[..cut]])[..|batches|] == batches;
    assert content[|Concat(batches)|..] == remaining;
    ConcatAppend(batches, remaining[..cut]);
    Rejoin(Concat(batches), remaining, cut);
  }

  lemma Rejoin(before: string, text: string, cut: nat)
    requires cut <= |text|
    ensures (before + text[..cut]) + text[cut..] == before + text
  {
  }

  /** The `i`-th batch ends where the text after the earlier ones is cut. */
  ghost predicate CutHereIn(content: string, batches: seq<string>, i: int)
    requires 0 <= i < |batches|
  {
    var start := |Concat(batches[..i])|;
    start <= |content| && |content| - start > 1850 && CutHere(content[start..], |batches[i]|)
  }

  // ----- files -----

  type Bytes = seq<nat>

  datatype Asset = Asset(filename: string, image: bool, content: Bytes)

  /** Files in order, as one sequence. */
  function Flatten(groups: seq<seq<Asset>>): seq<Asset> {
    if groups == [] then [] else groups[0] + Flatten(groups[1..])
  }

  lemma FlattenAppend(groups: seq<seq<Asset>>, last: seq<Asset>)
    ensures Flatten(groups + [last]) == Flatten(groups) + last
  {
    if groups == [] {
      assert groups + [last] == [last];
    } else {
      assert (groups + [last])[1..] == groups[1..] + [last];
      FlattenAppend(groups[1..], last);
    }
  }

  /** The bytes of consecutive files, one after the other. */
  function Rejoined(parts: seq<Asset>): Bytes {
    if parts == [] then [] else Rejoined(parts[..|parts| - 1]) + parts[|parts| - 1].content
  }

  /** The format `03d`. */
  function Padded(n: nat): string {
    if n < 10 then "00" + Decimal(n) else if n < 100 then "0" + Decimal(n) else Decimal(n)
  }

  /** The stem and suffix of a plain file name. */
  function LastDot(name: string): (i: int)
    ensures -1 <= i < |name| && (i >= 0 ==> name[i] == '.')
  {
    if name == "" then -1
    else if name[|name| - 1] == '.' then |name| - 1
    else LastDot(name[..|name| - 1])
  }

  function Stem(name: string): string {
    var i := LastDot(name);
    if 0 < i < |name| - 1 then name[..i] else name
  }

  function Suffix(name: string): string {
    var i := LastDot(name);
    if 0 < i < |name| - 1 then name[i..] else ""
  }

  function Short(s: string, limit: nat): string { if |s| <= limit then s else s[..limit] }

  function OrArtifact(s: string): string { if s == "" then "artifact" else s }

  function PartName(name: string, index: nat, count: nat): string {
    OrArtifact(Short(Stem(name), 120)) + ".part-" + Padded(index + 1) + "-of-" + Padded(count) + Suffix(name)
  }

  function PartNames(name: string, count: nat): (names: seq<string>)
    ensures |names| == count
  {
    seq(count, i requires 0 <= i < count => PartName(name, i, count))
  }

  /** `parts` are the pieces of `asset`, in order, under `names`; all but the last
      are as large as allowed. */
  ghost predicate PartsSoFar(asset: Asset, parts: seq<Asset>, names: seq<string>, maxBytes: nat) {
    && |parts| <= |names|
    && (forall i | 0 <= i < |parts| ::
          && 0 < |parts[i].content| <= maxBytes && parts[i].image == asset.image && parts[i].filename == names[i])
    && (forall i | 0 <= i < |parts| && i < |names| - 1 :: |parts[i].content| == maxBytes)
  }

  ghost predicate PartsOf(asset: Asset, parts: seq<Asset>, maxBytes: nat) {
    Rejoined(parts) == asset.content && PartsSoFar(asset, parts, PartNames(asset.filename, |parts|), maxBytes)
  }

  /** What becomes of one file: itself, nothing, or its parts. */
  ghost predicate Prepares(asset: Asset, group: seq<Asset>, maxBytes: nat) {
    if |asset.content| <= maxBytes then group == [asset]
    else if asset.image then group == []
    else |group| >= 2 && PartsOf(asset, group, maxBytes)
  }

  function Ceiling(a: nat, b: nat): (c: nat)
    requires b > 0
    ensures (a > 0 ==> c > 0 && (c - 1) * b < a) && a <= c * b
  {
    (a + b - 1) / b
  }

  /** The loop over the parts of one large file. */
  method SplitAsset(asset: Asset, maxBytes: nat) returns (parts: seq<Asset>)
    requires maxBytes >= 1 && |asset.content| > maxBytes
    ensures |parts| >= 2 && PartsOf(asset, parts, maxBytes)
  {
    var count := Ceiling(|asset.content|, maxBytes);
    SeveralParts(|asset.content|, maxBytes, count);
    var names := PartNames(asset.filename, count);
    parts := [];
    ghost var from: nat := 0;
    for i := 0 to count
      invariant |parts| == i && from <= |asset.content| && Rejoined(parts) == asset.content[..from]
      invariant from == if i == count then |asset.content| else Offset(i, maxBytes)
      invariant PartsSoFar(asset, parts, names, maxBytes)
    {
      var start := Offset(i, maxBytes);
      PartBounds(|asset.content|, maxBytes, count, i);
      var part := MakePart(asset, names[i], start, i, count, maxBytes);
      RejoinedAppend(parts, part);
      from := start + |part.content|;
      SliceJoin(asset.content, start, from);
      PartsGrow(asset, parts, part, names, maxBytes);
      parts := parts + [part];
    }
    assert asset.content[..|asset.content|] == asset.content;
  }

  method MakePart(asset: Asset, name: string, start: nat, i: nat, count: nat, maxBytes: nat) returns (part: Asset)
    requires maxBytes >= 1 && start < |asset.content| && i < count
    requires if i < count - 1 then start + maxBytes <= |asset.content| else |asset.content| <= start + maxBytes
    ensures 0 < |part.content| <= maxBytes && part.image == asset.image && part.filename == name
    ensures start + |part.content| <= |asset.content| && part.content == asset.content[start..start + |part.content|]
    ensures if i < count - 1 then |part.content| == maxBytes else start + |part.content| == |asset.content|
  {
    var end := if start + maxBytes <= |asset.content| then start + maxBytes else |asset.content|;
    part := Asset(name, asset.image, asset.content[start..end]);
  }

  lemma PartsGrow(asset: Asset, parts: seq<Asset>, part: Asset, names: seq<string>, maxBytes: nat)
    requires PartsSoFar(asset, parts, names, maxBytes) && |parts| < |names|
    requires 0 < |part.content| <= maxBytes && part.image == asset.image && part.filename == names[|parts|]
    requires |parts| < |names| - 1 ==> |part.content| == maxBytes
    ensures PartsSoFar(asset, parts + [part], names, maxBytes)
  {
  }

  lemma SliceJoin(content: Bytes, a: nat, b: nat)
    requires a <= b <= |content|
    ensures content[..a] + content[a..b] == content[..b]
  {
  }

  lemma RejoinedAppend(parts: seq<Asset>, part: Asset)
    ensures Rejoined(parts + [part]) == Rejoined(parts) + part.content
  {
    assert (parts + [part])[..|parts|] == parts;
  }

  /** Where a part begins. */
  function Offset(i: nat, size: nat): nat { i * size }

  lemma SeveralParts(n: nat, size: nat, count: nat)
    requires size >= 1 && n > size && n <= count * size
    ensures count >= 2
  {
    assert count <= 1 ==> count * size <= size;
  }

  lemma PartBounds(n: nat, size: nat, count: nat, i: nat)
    requires size >= 1 && count > 0 && (count - 1) * size < n <= count * size && i < count
    ensures Offset(i, size) < n && Offset(i + 1, size) == Offset(i, size) + size
    ensures if i < count - 1 then Offset(i, size) + size <= n else n <= Offset(i, size) + size
  {
    assert (i + 1) * size == i * size + size;
    if i < count - 1 {
      assert (i + 1) * size <= (count - 1) * size;
    }
  }

  method PrepareOne(asset: Asset, maxBytes: nat) returns (group: seq<Asset>)
    requires maxBytes >= 1
    ensures Prepares(asset, group, maxBytes)
    ensures |group| == 1 || |asset.content| > maxBytes
    ensures |asset.content| > maxBytes && asset.image ==> group == []
  {
    if |asset.content| <= maxBytes {
      group := [asset];
    } else if asset.image {
      group := [];
    } else {
      group := SplitAsset(asset, maxBytes);
    }
  }

  /** Only an image that is too large loses its content. */
  lemma PreparedKeepsContent(asset: Asset, group: seq<Asset>, maxBytes: nat)
    requires Prepares(asset, group, maxBytes)
    ensures Rejoined(group) == asset.content <==> !(asset.image && |asset.content| > maxBytes)
    ensures forall i | 0 <= i < |group| :: |group[i].content| <= maxBytes
  {
    if |asset.content| <= maxBytes {
      RejoinedAppend([], asset);
      assert [] + [asset] == [asset];
    } else if !asset.image {
      assert PartsSoFar(asset, group, PartNames(asset.filename, |group|), maxBytes);
    }
  }

  lemma PreparesAppend(assets: seq<Asset>, groups: seq<seq<Asset>>, group: seq<Asset>, maxBytes: nat)
    requires |groups| < |assets| && Prepares(assets[|groups|], group, maxBytes)
    requires forall j | 0 <= j < |groups| :: Prepares(assets[j], groups[j], maxBytes)
    ensures forall j | 0 <= j < |groups| + 1 :: Prepares(assets[j], (groups + [group])[j], maxBytes)
  {
    forall j | 0 <= j < |groups| + 1 ensures Prepares(assets[j], (groups + [group])[j], maxBytes) {
      if j < |groups| { assert (groups + [group])[j] == groups[j]; }
    }
  }

  /** `_prepare_discord_assets`: in `groups`, what became of each file. */
  method PrepareAssets(assets: seq<Asset>, maxBytes: nat)
    returns (prepared: seq<Asset>, splitFiles: nat, splitParts: nat, omitted: nat, ghost groups: seq<seq<Asset>>)
    requires maxBytes >= 1
    ensures |groups| == |assets| && Flatten(groups) == prepared
    ensures forall i | 0 <= i < |assets| :: Prepares(assets[i], groups[i], maxBytes)
    ensures splitFiles == Oversized(assets, maxBytes, false) && omitted == Oversized(assets, maxBytes, true)
    ensures |assets| + splitParts == |prepared| + splitFiles + omitted
    ensures splitFiles == 0 && omitted == 0 ==> prepared == assets
  {
    prepared, splitFiles, splitParts, omitted, groups := [], 0, 0, 0, [];
    for i := 0 to |assets|
      invariant |groups| == i && Flatten(groups) == prepared
      invariant forall j | 0 <= j < i :: Prepares(assets[j], groups[j], maxBytes)
      invariant splitFiles == Oversized(assets[..i], maxBytes, false) && omitted == Oversized(assets[..i], maxBytes, true)
      invariant i + splitParts == |prepared| + splitFiles + omitted
      invariant splitFiles == 0 && omitted == 0 ==> prepared == assets[..i]
    {
      var asset := assets[i];
      var group := PrepareOne(asset, maxBytes);
      if |asset.content| > maxBytes {
        if asset.image {
          omitted := omitted + 1;
        } else {
          splitFiles := splitFiles + 1;
          splitParts := splitParts + |group|;
        }
      }
      FlattenAppend(groups, group);
      PreparesAppend(assets, groups, group, maxBytes);
      assert assets[..i + 1][..i] == assets[..i];
      groups := groups + [group];
      prepared := prepared + group;
    }
    assert assets[..|assets|] == assets;
  }

  /** How many files are too large, among images or among the others. */
  function Oversized(assets: seq<Asset>, maxBytes: nat, image: bool): (n: nat)
    ensures n <= |assets|
  {
    if assets == [] then 0
    else
      var last := assets[|assets| - 1];
      Oversized(assets[..|assets| - 1], maxBytes, image) + if |last.content| > maxBytes && last.image == image then 1 else 0
  }

  // ----- the note -----

  const SplitInto: string := " large attachment(s) were split into "
  const UploadSafe: string := " upload-safe file(s); concatenate matching parts in order."
  const NotShown: string :=
    " oversized PNG/image preview(s) were omitted rather than splitting invalid image bytes; use the accompanying Markdown/CSV source."

  function Note(splitFiles: nat, splitParts: nat, omitted: nat): string {
    var split := Decimal(splitFiles) + SplitInto + Decimal(splitParts) + UploadSafe;
    var left := Decimal(omitted) + NotShown;
    if splitFiles > 0 && omitted > 0 then "\n\n" + split + " " + left
    else if splitFiles > 0 then "\n\n" + split
    else if omitted > 0 then "\n\n" + left
    else ""
  }

  lemma NoteLength(splitFiles: nat, splitParts: nat, omitted: nat)
    ensures |Note(splitFiles, splitParts, omitted)| ==
      if splitFiles > 0 && omitted > 0 then 227 + |Decimal(splitFiles)| + |Decimal(splitParts)| + |Decimal(omitted)|
      else if splitFiles > 0 then 97 + |Decimal(splitFiles)| + |Decimal(splitParts)|
      else if omitted > 0 then 131 + |Decimal(omitted)|
      else 0
  {
    assert |SplitInto| == 37 && |UploadSafe| == 58 && |NotShown| == 129;
  }

  function Power(k: nat): (n: nat)
    ensures n >= 1
  {
    if k == 0 then 1 else 10 * Power(k - 1)
  }

  /** A number has at most `k` digits if and only if it is below the `k`-th power of ten. */
  lemma {:induction false} DigitsBelow(n: nat, k: nat)
    requires k >= 1
    ensures |Decimal(n)| <= k <==> n < Power(k)
  {
    DecimalLength(n);
    if k == 1 {
      assert Power(1) == 10 * Power(0);
    } else if n >= 10 {
      DigitsBelow(n / 10, k - 1);
    } else {
      assert Power(k - 1) >= 1;
    }
  }

  /** What is sent fits 1850 characters if and only if the text did, when there is
      no note, and otherwise if the note leaves room for a character, or for
      none and there is no text. */
  lemma AnnotatedFits(content: string, splitFiles: nat, splitParts: nat, omitted: nat)
    ensures var note := Note(splitFiles, splitParts, omitted);
      |Annotated(content, note)| <= 1850 <==>
        if splitFiles == 0 && omitted == 0 then |content| <= 1850
        else |note| <= 1849 || (|note| == 1850 && content == "")
  {
    NoteLength(splitFiles, splitParts, omitted);
  }

  /** A number of at most 500 digits. */
  predicate Few(n: nat) { |Decimal(n)| <= 500 }

  lemma {:induction false} FewerDigits(a: nat, b: nat)
    requires a <= b
    ensures |Decimal(a)| <= |Decimal(b)|
  {
    DecimalLength(b);
    if a >= 10 { FewerDigits(a / 10, b / 10); }
  }

  /** Notes leave room for the text when no count has more than 500 digits. */
  lemma NotesLeaveRoom(splitFiles: nat, splitParts: nat, omitted: nat)
    requires Few(splitFiles) && Few(splitParts) && Few(omitted)
    ensures |Note(splitFiles, splitParts, omitted)| <= 1849
  {
    NoteLength(splitFiles, splitParts, omitted);
  }

  lemma CountsApart(assets: seq<Asset>, maxBytes: nat)
    ensures Oversized(assets, maxBytes, false) + Oversized(assets, maxBytes, true) <= |assets|
  {
  }

  lemma MessageFits(content: string, splitFiles: nat, splitParts: nat, omitted: nat, assets: nat, prepared: nat)
    requires splitFiles + omitted <= assets && assets + splitParts == prepared + splitFiles + omitted
    requires Few(assets) && Few(prepared)
    ensures |Annotated(content, Note(splitFiles, splitParts, omitted))| <= 1850
            <==> |content| <= 1850 || splitFiles > 0 || omitted > 0
  {
    FewerDigits(splitFiles, assets);
    FewerDigits(omitted, assets);
    FewerDigits(splitParts, prepared);
    NotesLeaveRoom(splitFiles, splitParts, omitted);
    AnnotatedFits(content, splitFiles, splitParts, omitted);
  }

  /** The content with a note about what was split or omitted. */
  function Annotated(content: string, note: string): (r: string)
    ensures note == "" ==> r == content
    ensures 0 < |note| <= 1849 ==> |r| <= 1850
    ensures note != "" ==> |r| >= |note| && r[|r| - |note|..] == note
    ensures note != "" && |content| + |note| <= 1850 ==> r == content + note
  {
    if note == "" then content
    else
      var available := if 1850 - |note| > 1 then 1850 - |note| else 1;
      if |content| > available then content[..available - 1] + "…" + note else content + note
  }

  /** The whole of `_prepare_discord_assets`: the files as far as they can be sent,
      and the content with a note that counts what became of the others. */
  method PrepareMessage(content: string, assets: seq<Asset>, maxBytes: nat)
    returns (text: string, prepared: seq<Asset>, ghost groups: seq<seq<Asset>>, ghost parts: nat)
    requires maxBytes >= 1
    ensures |groups| == |assets| && Flatten(groups) == prepared
    ensures forall i | 0 <= i < |assets| :: Prepares(assets[i], groups[i], maxBytes)
    ensures var split, omitted := Oversized(assets, maxBytes, false), Oversized(assets, maxBytes, true);
      && |assets| + parts == |prepared| + split + omitted
      && text == Annotated(content, Note(split, parts, omitted))
      && (split == 0 && omitted == 0 ==> prepared == assets)
      && (Few(|assets|) && Few(|prepared|) ==> (|text| <= 1850 <==> |content| <= 1850 || split > 0 || omitted > 0))
  {
    var splitFiles, splitParts, omitted;
    prepared, splitFiles, splitParts, omitted, groups := PrepareAssets(assets, maxBytes);
    text, parts := Annotated(content, Note(splitFiles, splitParts, omitted)), splitParts;
    CountsApart(assets, maxBytes);
    if Few(|assets|) && Few(|prepared|) {
      MessageFits(content, splitFiles, splitParts, omitted, |assets|, |prepared|);
    }
  }

  /** As much of the content is kept as the note leaves room for: all of it, or
      what fills 1850 characters with an ellipsis and the note. */
  lemma AnnotatedKeepsMost(content: string, note: string)
    requires 0 < |note| <= 1849
    ensures Annotated(content, note) ==
      if |content| + |note| <= 1850 then content + note else content[..1849 - |note|] + "…" + note
    ensures |content| + |note| > 1850 ==> |Annotated(content, note)| == 1850
  {
  }

  /** Where the counts stand in the note. */
  lemma NoteSays(splitFiles: nat, splitParts: nat, omitted: nat)
    ensures splitFiles > 0 ==>
      Note(splitFiles, splitParts, 0) == "\n\n" + SplitNote(Decimal(splitFiles), Decimal(splitParts))
    ensures omitted > 0 ==> Note(0, splitParts, omitted) == "\n\n" + OmissionNote(Decimal(omitted))
    ensures splitFiles > 0 && omitted > 0 ==>
      Note(splitFiles, splitParts, omitted)
      == "\n\n" + SplitNote(Decimal(splitFiles), Decimal(splitParts)) + " " + OmissionNote(Decimal(omitted))
    ensures Note(0, splitParts, 0) == ""
  {
  }

  function SplitNote(files: string, parts: string): string {
    files + " large attachment(s) were split into " + parts + " upload-safe file(s); concatenate matching parts in order."
  }

  function OmissionNote(images: string): string {
    images + " oversized PNG/image preview(s) were omitted rather than splitting invalid image bytes; use the accompanying Markdown/CSV source."
  }

  /** A batch of a message; embeds travel with it. */
  datatype Batch = Batch(content: string, assets: seq<Asset>)

  function AssetsOf(batches: seq<Batch>): seq<seq<Asset>> {
    seq(|batches|, i requires 0 <= i < |batches| => batches[i].assets)
  }

  lemma AssetsAppend(batches: seq<Batch>, last: Batch)
    ensures Flatten(AssetsOf(batches + [last])) == Flatten(AssetsOf(batches)) + last.assets
  {
    assert AssetsOf(batches + [last]) == AssetsOf(batches) + [last.assets];
    FlattenAppend(AssetsOf(batches), last.assets);
  }

  lemma AssetsJoin(assets: seq<Asset>, a: nat, b: nat, c: nat)
    requires a <= b <= c <= |assets|
    ensures assets[a..b] + assets[b..c] == assets[a..c]
  {
  }

  /** The rest of the files, ten to a batch. */
  method OverflowBatches(assets: seq<Asset>, from: nat) returns (added: seq<Batch>)
    requires from <= |assets|
    ensures Flatten(AssetsOf(added)) == assets[from..]
    ensures forall i | 0 <= i < |added| :: 0 < |added[i].assets| <= 10
    ensures forall i | 0 <= i < |added| - 1 :: |added[i].assets| == 10
  {
    added := [];
    var index := from;
    while index < |assets|
      invariant from <= index <= |assets|
      invariant Flatten(AssetsOf(added)) == assets[from..index]
      invariant forall i | 0 <= i < |added| :: 0 < |added[i].assets| <= 10
      invariant forall i | 0 <= i < |added| && (i < |added| - 1 || index < |assets|) :: |added[i].assets| == 10
    {
      var end := if index + 10 <= |assets| then index + 10 else |assets|;
      var batch := Batch("Attached durable output artifact(s).", assets[index..end]);
      AssetsAppend(added, batch);
      AssetsJoin(assets, from, index, end);
      added := added + [batch];
      index := end;
    }
    assert assets[from..|assets|] == assets[from..];
  }

  /** `_append_assets_to_batches`: the first batch is filled up to ten files, as
      far as it has `room`, and the rest follows in batches of at most ten. */
  method AppendAssets(batches: seq<Batch>, assets: seq<Asset>) returns (result: seq<Batch>, ghost room: nat)
    requires batches != [] || assets == []
    ensures assets == [] ==> result == batches
    ensures assets != [] ==>
      && room <= |assets| && |result| >= |batches|
      && result[0] == batches[0].(assets := batches[0].assets + assets[..room])
      && result[1..|batches|] == batches[1..]
      && Flatten(AssetsOf(result[|batches|..])) == assets[room..]
      && (room > 0 ==> |batches[0].assets| + room <= 10)
      && (room < |assets| ==> |batches[0].assets| + room >= 10)
    ensures forall i | |batches| <= i < |result| :: 0 < |result[i].assets| <= 10
    ensures forall i | |batches| <= i < |result| - 1 :: |result[i].assets| == 10
  {
    room := 0;
    if assets == [] { return batches, 0; }
    var first := batches[0];
    var capacity := if |first.assets| < 10 then 10 - |first.assets| else 0;
    var taken := if capacity <= |assets| then capacity else |assets|;
    room := taken;
    var added := OverflowBatches(assets, taken);
    result := [first.(assets := first.assets + assets[..taken])] + batches[1..] + added;
    assert result[|batches|..] == added;
  }

  // ----- names -----

  /** Case folding, character by character. */
  function Fold(fold: char -> string, s: string): string {
    if s == "" then "" else fold(s[0]) + Fold(fold, s[1..])
  }

  /** Digits have no case. */
  ghost predicate KeepsDigits(fold: char -> string) {
    forall d: nat | d < 10 :: fold(Digit(d)) == [Digit(d)]
  }

  lemma FoldAppend(fold: char -> string, a: string, b: string)
    ensures Fold(fold, a + b) == Fold(fold, a) + Fold(fold, b)
  {
    if a == "" {
      assert a + b == b;
    } else {
      assert (a + b)[1..] == a[1..] + b;
      FoldAppend(fold, a[1..], b);
    }
  }

  lemma {:induction false} FoldDecimal(fold: char -> string, n: nat)
    requires KeepsDigits(fold)
    ensures Fold(fold, Decimal(n)) == Decimal(n)
  {
    var last := [Digit(n % 10)];
    assert last[1..] == "";
    assert Fold(fold, last) == fold(Digit(n % 10)) + Fold(fold, last[1..]);
    if n >= 10 {
      FoldDecimal(fold, n / 10);
      FoldAppend(fold, Decimal(n / 10), last);
    }
  }

  lemma PaddedInjective(a: nat, b: nat)
    requires a > 0 && b > 0 && Padded(a) == Padded(b)
    ensures a == b
  {
    LeadingDigit(a);
    LeadingDigit(b);
    DecimalLength(a);
    DecimalLength(b);
    if a < 10 && b < 10 {
      assert Decimal(a) == Padded(a)[2..] && Decimal(b) == Padded(b)[2..];
    } else if 10 <= a < 100 && 10 <= b < 100 {
      assert Decimal(a) == Padded(a)[1..] && Decimal(b) == Padded(b)[1..];
    } else {
      PaddedStart(a);
      PaddedStart(b);
    }
    DecimalInjective(a, b);
  }

  /** Numbers below 10 are padded with two zeros, numbers below 100 with one. */
  lemma PaddedStart(n: nat)
    requires n > 0
    ensures |Padded(n)| >= 3
    ensures Padded(n)[0] == '0' <==> n < 100
    ensures Padded(n)[0] == '0' && Padded(n)[1] == '0' <==> n < 10
  {
    LeadingDigit(n);
    DecimalLength(n);
    if n >= 10 { DecimalLength(n / 10); }
    if n >= 100 { DecimalLength(n / 100); }
  }

  /** A name is its stem and its suffix; a suffix starts at the last dot, which is
      neither the first nor the last character. */
  lemma StemAndSuffix(name: string)
    ensures Stem(name) + Suffix(name) == name
    ensures Suffix(name) != "" ==> Stem(name) != "" && |Suffix(name)| >= 2 && Suffix(name)[0] == '.' && '.' !in Suffix(name)[1..]
    ensures Suffix(name) == "" <==>
      '.' !in name || (name[0] == '.' && '.' !in name[1..]) || name[|name| - 1] == '.'
  {
    LastDotIsLast(name);
    var i := LastDot(name);
    if i >= 0 {
      assert forall j | 1 <= j < |name[i..]| :: name[i..][j] == name[i + j];
      assert forall j | 0 <= j < |name[i..][1..]| :: name[i..][1..][j] == name[i + 1 + j];
      assert i == 0 ==> name[i..][1..] == name[1..];
    }
  }

  lemma {:induction false} LastDotIsLast(name: string)
    ensures forall j | LastDot(name) < j < |name| :: name[j] != '.'
  {
    if name != "" && name[|name| - 1] != '.' {
      LastDotIsLast(name[..|name| - 1]);
      forall j | LastDot(name) < j < |name| ensures name[j] != '.' {
        if j < |name| - 1 { assert name[j] == name[..|name| - 1][j]; }
      }
    }
  }

  lemma Regroup(a: string, b: string, c: string, d: string, e: string)
    ensures a + b + c + d + e == a + b + (c + d + e)
  {
  }

  /** Parts of one file have different names. */
  lemma PartNamesDiffer(name: string, count: nat, i: nat, j: nat)
    requires i < j < count
    ensures PartName(name, i, count) != PartName(name, j, count)
  {
    var before, last := OrArtifact(Short(Stem(name), 120)) + ".part-", Padded(count);
    Regroup(before, Padded(i + 1), "-of-", last, Suffix(name));
    Regroup(before, Padded(j + 1), "-of-", last, Suffix(name));
    if PartName(name, i, count) == PartName(name, j, count) {
      Cancel(before, Padded(i + 1), Padded(j + 1), "-of-" + last + Suffix(name));
      PaddedInjective(i + 1, j + 1);
    }
  }

  /** The parts of a file with an extension carry index, count and extension. */
  lemma PartNameCarries(stem: string, extension: string, i: nat, count: nat)
    requires 0 < |stem| <= 120 && extension != "" && '.' !in extension
    ensures PartName(stem + "." + extension, i, count)
            == stem + ".part-" + Padded(i + 1) + "-of-" + Padded(count) + ("." + extension)
  {
    var name := stem + "." + extension;
    LastDotIsLast(name);
    assert name[|stem|] == '.';
    forall j | |stem| < j < |name| ensures name[j] != '.' {
      assert name[j] == extension[j - |stem| - 1];
    }
    assert LastDot(name) == |stem|;
    assert name[..|stem|] == stem && name[|stem|..] == "." + extension;
  }

  /** Three digits, or more when they are needed. */
  lemma PaddedTo3()
    ensures Padded(3) == "003" && Padded(12) == "012" && Padded(345) == "345" && |Padded(1000)| == 4
  {
    assert Decimal(12) == Decimal(1) + [Digit(2)];
    assert Decimal(34) == Decimal(3) + [Digit(4)];
    assert Decimal(345) == Decimal(34) + [Digit(5)];
    assert |Decimal(10)| == 2 && |Decimal(100)| == 3;
  }

  /** The name tried in round `k`: the file's own name, then numbered ones. */
  function Candidate(name: string, k: nat): string {
    if k < 2 then name else Numbered(name, k)
  }

  function Numbered(name: string, k: nat): string {
    OrArtifact(Short(Stem(name), 160)) + "-" + Decimal(k) + Short(Suffix(name), 20)
  }

  /** Numbered candidates differ even after folding. */
  lemma CandidatesDiffer(fold: char -> string, name: string, a: nat, b: nat)
    requires KeepsDigits(fold) && a >= 2 && b >= 2
    requires Fold(fold, Candidate(name, a)) == Fold(fold, Candidate(name, b))
    ensures a == b
  {
    var before, after := OrArtifact(Short(Stem(name), 160)) + "-", Short(Suffix(name), 20);
    FoldAppend(fold, before + Decimal(a), after);
    FoldAppend(fold, before, Decimal(a));
    FoldDecimal(fold, a);
    FoldAppend(fold, before + Decimal(b), after);
    FoldAppend(fold, before, Decimal(b));
    FoldDecimal(fold, b);
    Cancel(Fold(fold, before), Decimal(a), Decimal(b), Fold(fold, after));
    DecimalInjective(a, b);
  }

  lemma Cancel(before: string, x: string, y: string, after: string)
    requires before + x + after == before + y + after
    ensures x == y
  {
    var s := before + x + after;
    assert |x| == |y|;
    assert s[|before|..|before| + |x|] == x;
    assert (before + y + after)[|before|..|before| + |y|] == y;
  }

  /** The folded numbered candidates below `n`. */
  ghost function Tried(fold: char -> string, name: string, n: nat): set<string> {
    if n <= 2 then {} else Tried(fold, name, n - 1) + {Fold(fold, Candidate(name, n - 1))}
  }

  lemma {:induction false} TriedMember(fold: char -> string, name: string, n: nat, c: string) returns (k: nat)
    requires c in Tried(fold, name, n)
    ensures 2 <= k < n && c == Fold(fold, Candidate(name, k))
  {
    if c == Fold(fold, Candidate(name, n - 1)) {
      k := n - 1;
    } else {
      k := TriedMember(fold, name, n - 1, c);
    }
  }

  lemma {:induction false} TriedCount(fold: char -> string, name: string, n: nat)
    requires KeepsDigits(fold) && n >= 2
    ensures |Tried(fold, name, n)| == n - 2
  {
    if n > 2 {
      TriedCount(fold, name, n - 1);
      var c := Fold(fold, Candidate(name, n - 1));
      if c in Tried(fold, name, n - 1) {
        var k := TriedMember(fold, name, n - 1, c);
        CandidatesDiffer(fold, name, k, n - 1);
      }
    }
  }

  lemma Subsets(a: set<string>, b: set<string>)
    requires a <= b
    ensures |a| <= |b|
  {
    if a != {} {
      var x :| x in a;
      Subsets(a - {x}, b - {x});
    }
  }

  /** If all candidates up to `round` are used, so many names are. */
  lemma StillFinite(fold: char -> string, name: string, round: nat, used: set<string>)
    requires KeepsDigits(fold) && round >= 2
    requires forall k: nat | k <= round :: Fold(fold, Candidate(name, k)) in used
    ensures round - 1 <= |used|
  {
    TriedCount(fold, name, round + 1);
    forall c | c in Tried(fold, name, round + 1) ensures c in used {
      var k := TriedMember(fold, name, round + 1, c);
    }
    Subsets(Tried(fold, name, round + 1), used);
  }

  /** The first candidate whose folded form is free. The loop ends because only
      finitely many names are used and all candidates differ. */
  method FreeName(fold: char -> string, name: string, used: set<string>) returns (candidate: string, ghost round: nat)
    requires KeepsDigits(fold)
    ensures Fold(fold, candidate) !in used && candidate == Candidate(name, round)
    ensures round == 0 || round >= 2
    ensures Fold(fold, name) !in used <==> round == 0
    ensures forall k: nat | k < round :: Fold(fold, Candidate(name, k)) in used
  {
    candidate, round := name, 0;
    var suffixIndex := 2;
    while Fold(fold, candidate) in used
      invariant suffixIndex >= 2 && (round == 0 || (round >= 2 && round == suffixIndex - 1))
      invariant round == 0 ==> suffixIndex == 2
      invariant candidate == Candidate(name, round)
      invariant forall k: nat | k < round :: Fold(fold, Candidate(name, k)) in used
      decreases |used| + 3 - suffixIndex
    {
      if round >= 2 { StillFinite(fold, name, round, used); }
      candidate := Numbered(name, suffixIndex);
      round := suffixIndex;
      suffixIndex := suffixIndex + 1;
    }
  }

  /** No two files of one message have the same name. */
  ghost predicate Unique(fold: char -> string, assets: seq<Asset>) {
    forall i, j | 0 <= i < j < |assets| :: Folded(fold, assets, i) != Folded(fold, assets, j)
  }

  ghost function Folded(fold: char -> string, assets: seq<Asset>, i: int): string
    requires 0 <= i < |assets|
  {
    Fold(fold, assets[i].filename)
  }

  ghost predicate Uses(fold: char -> string, assets: seq<Asset>, used: set<string>) {
    && (forall i | 0 <= i < |assets| :: Folded(fold, assets, i) in used)
    && (forall c | c in used :: exists i | 0 <= i < |assets| :: c == Folded(fold, assets, i))
  }

  /** `after` is `before` under the first of its candidate names that no file in
      `earlier` has. */
  ghost predicate Renamed(fold: char -> string, earlier: seq<Asset>, before: Asset, after: Asset, round: nat) {
    && after == before.(filename := Candidate(before.filename, round))
    && (round == 0 || round >= 2)
    && (forall i | 0 <= i < |earlier| :: Folded(fold, earlier, i) != Fold(fold, after.filename))
    && (forall k: nat | k < round :: exists i | 0 <= i < |earlier| :: Folded(fold, earlier, i) == Fold(fold, Candidate(before.filename, k)))
  }

  lemma UsesAppend(fold: char -> string, assets: seq<Asset>, used: set<string>, last: Asset)
    requires Uses(fold, assets, used)
    ensures Uses(fold, assets + [last], used + {Fold(fold, last.filename)})
  {
    var more := assets + [last];
    assert Folded(fold, more, |assets|) == Fold(fold, last.filename);
    forall i | 0 <= i < |assets| ensures Folded(fold, more, i) == Folded(fold, assets, i) { }
    forall c | c in used ensures exists i | 0 <= i < |more| :: c == Folded(fold, more, i) {
      var i :| 0 <= i < |assets| && c == Folded(fold, assets, i);
      assert c == Folded(fold, more, i);
    }
  }

  lemma UniqueAppend(fold: char -> string, assets: seq<Asset>, last: Asset)
    requires Unique(fold, assets)
    requires forall i | 0 <= i < |assets| :: Folded(fold, assets, i) != Fold(fold, last.filename)
    ensures Unique(fold, assets + [last])
  {
    var more := assets + [last];
    forall i, j | 0 <= i < j < |more| ensures Folded(fold, more, i) != Folded(fold, more, j) {
      assert more[i] == assets[i] && Folded(fold, more, i) == Folded(fold, assets, i);
      if j < |assets| { assert Folded(fold, more, j) == Folded(fold, assets, j); }
    }
  }

  /** The loop body of `_unique_discord_assets`. */
  method RenameOne(fold: char -> string, earlier: seq<Asset>, used: set<string>, asset: Asset)
    returns (renamed: Asset, ghost round: nat)
    requires KeepsDigits(fold) && Uses(fold, earlier, used)
    ensures Renamed(fold, earlier, asset, renamed, round)
  {
    var candidate;
    candidate, round := FreeName(fold, asset.filename, used);
    renamed := asset.(filename := candidate);
    forall k: nat | k < round
      ensures exists i | 0 <= i < |earlier| :: Folded(fold, earlier, i) == Fold(fold, Candidate(asset.filename, k))
    {
      assert Fold(fold, Candidate(asset.filename, k)) in used;
    }
  }

  /** `_unique_discord_assets`, for names that are base names already. In
      `rounds`, how often each file had to try. */
  method UniqueAssets(fold: char -> string, assets: seq<Asset>) returns (normalized: seq<Asset>, ghost rounds: seq<nat>)
    requires KeepsDigits(fold)
    ensures |normalized| == |rounds| == |assets| && Unique(fold, normalized)
    ensures forall i | 0 <= i < |assets| :: Renamed(fold, normalized[..i], assets[i], normalized[i], rounds[i])
    ensures Unique(fold, assets) <==> normalized == assets
  {
    normalized, rounds := [], [];
    var used: set<string> := {};
    for i := 0 to |assets|
      invariant |normalized| == |rounds| == i && Unique(fold, normalized) && Uses(fold, normalized, used)
      invariant forall j | 0 <= j < i :: Renamed(fold, normalized[..j], assets[j], normalized[j], rounds[j])
      invariant Unique(fold, assets) ==> normalized == assets[..i]
    {
      var renamed, round := RenameOne(fold, normalized, used, assets[i]);
      UniqueAppend(fold, normalized, renamed);
      UsesAppend(fold, normalized, used, renamed);
      if Unique(fold, assets) {
        KeepsItsName(fold, assets, i, renamed, round);
      }
      RenamedAppend(fold, assets, normalized, rounds, renamed, round);
      used := used + {Fold(fold, renamed.filename)};
      normalized, rounds := normalized + [renamed], rounds + [round];
    }
    assert assets[..|assets|] == assets;
  }

  lemma RenamedAppend(fold: char -> string, assets: seq<Asset>, normalized: seq<Asset>, rounds: seq<nat>,
                      renamed: Asset, round: nat)
    requires |normalized| == |rounds| < |assets|
    requires forall j | 0 <= j < |normalized| :: Renamed(fold, normalized[..j], assets[j], normalized[j], rounds[j])
    requires Renamed(fold, normalized, assets[|normalized|], renamed, round)
    ensures forall j | 0 <= j < |normalized| + 1 ::
      Renamed(fold, (normalized + [renamed])[..j], assets[j], (normalized + [renamed])[j], (rounds + [round])[j])
  {
    forall j | 0 <= j < |normalized| + 1
      ensures Renamed(fold, (normalized + [renamed])[..j], assets[j], (normalized + [renamed])[j], (rounds + [round])[j])
    {
      assert (normalized + [renamed])[..j] == normalized[..j];
      if j == |normalized| { assert normalized[..j] == normalized; }
    }
  }

  /** A file whose name no earlier file has keeps it. */
  lemma KeepsItsName(fold: char -> string, assets: seq<Asset>, i: nat, renamed: Asset, round: nat)
    requires i < |assets| && Unique(fold, assets) && Renamed(fold, assets[..i], assets[i], renamed, round)
    ensures renamed == assets[i] && assets[..i] + [renamed] == assets[..i + 1]
  {
    forall j | 0 <= j < |assets[..i]| ensures Folded(fold, assets[..i], j) != Fold(fold, assets[i].filename) {
      assert Folded(fold, assets, j) != Folded(fold, assets, i);
    }
    assert Candidate(assets[i].filename, 0) == assets[i].filename;
  }
}
