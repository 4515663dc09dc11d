/** Fitting a message's attachments into one JSON-RPC frame (src/copilotd/core/attachments.py).

    Every stored item can travel as a file reference; some can also travel inline, as a blob.
    The runtime refuses a frame above a byte budget, so blobs are turned into file references,
    largest saving first, until the frame fits. */
module FrameFitting {
  import opened Decimals

  /** One item with the bytes of its two serialized forms; `blob` when the inline form exists. */
  datatype Item = Item(blob: bool, blobSize: nat, fileSize: nat)

  /** What is measured: the bare attachment list, or the whole framed `session.send` message,
      of which `envelope` bytes are not part of the list. */
  datatype Framing = Request | Send(envelope: nat)

  /** For each item, whether it was turned into a file reference. */
  type Choice = seq<bool>

  ghost predicate Legal(items: seq<Item>, c: Choice) {
    |c| == |items| && forall i :: 0 <= i < |c| && c[i] ==> items[i].blob
  }

  function NoDowngrade(n: nat): (c: Choice)
    ensures |c| == n && forall i :: 0 <= i < n ==> !c[i]
  {
    seq(n, _ => false)
  }

  function Digits(n: nat): nat {
    if n < 10 then 1 else 1 + Digits(n / 10)
  }

  /** Bytes of `[a,b,...]` with n elements of `sum` bytes together. */
  function ListSize(sum: int, n: nat): int {
    2 + sum + if n == 0 then 0 else n - 1
  }

  /** "Content-Length: " is 16 bytes and the blank line after it 4. */
  function FrameSize(f: Framing, sum: nat, n: nat): nat {
    match f
    case Request => ListSize(sum, n)
    case Send(envelope) =>
      var content := envelope + ListSize(sum, n);
      16 + Digits(content) + 4 + content
  }

  function SizeOf(item: Item, filed: bool): nat {
    if item.blob && !filed then item.blobSize else item.fileSize
  }

  /** Serialized bytes of the first m items. */
  function Sum(items: seq<Item>, c: Choice, m: nat): nat
    requires |c| == |items| && m <= |items|
  {
    if m == 0 then 0 else Sum(items, c, m - 1) + SizeOf(items[m - 1], c[m - 1])
  }

  function Size(f: Framing, items: seq<Item>, c: Choice, m: nat): nat
    requires |c| == |items| && m <= |items|
  {
    FrameSize(f, Sum(items, c, m), m)
  }

  // ---------------------------------------------------------------- the frame itself

  /** Serialized forms as sequences of bytes, each written as a character. */
  function Join(texts: seq<string>): string {
    if texts == [] then ""
    else if |texts| == 1 then texts[0]
    else Join(texts[..|texts| - 1]) + "," + texts[|texts| - 1]
  }

  function ListText(texts: seq<string>): string { "[" + Join(texts) + "]" }

  /** The framed message; `before` and `after` surround the list. */
  function FrameText(before: string, texts: seq<string>, after: string): string {
    var content := before + ListText(texts) + after;
    "Content-Length: " + Decimal(|content|) + "\r\n\r\n" + content
  }

  lemma {:induction false} DigitsAreDecimal(n: nat)
    ensures |Decimal(n)| == Digits(n)
  {
    if n >= 10 { DigitsAreDecimal(n / 10); }
  }

  /** The texts are the serialized forms that the choice calls for. */
  ghost predicate Forms(items: seq<Item>, c: Choice, texts: seq<string>) {
    |c| == |items| == |texts| && forall i :: 0 <= i < |texts| ==> |texts[i]| == SizeOf(items[i], c[i])
  }

  lemma {:induction false} JoinLength(items: seq<Item>, c: Choice, texts: seq<string>, m: nat)
    requires Forms(items, c, texts) && m <= |items|
    ensures |Join(texts[..m])| == Sum(items, c, m) + if m == 0 then 0 else m - 1
  {
    if m > 0 {
      JoinLength(items, c, texts, m - 1);
      assert texts[..m][..m - 1] == texts[..m - 1];
    }
  }

  /** What the loops measure is the length of the list, or of the whole frame. */
  lemma SizeIsLength(items: seq<Item>, c: Choice, texts: seq<string>, before: string, after: string)
    requires Forms(items, c, texts)
    ensures Size(Request, items, c, |items|) == |ListText(texts)|
    ensures Size(Send(|before| + |after|), items, c, |items|) == |FrameText(before, texts, after)|
  {
    JoinLength(items, c, texts, |items|);
    assert texts[..|items|] == texts;
    DigitsAreDecimal(|before + ListText(texts) + after|);
  }

  predicate Fits(f: Framing, items: seq<Item>, c: Choice, m: nat, budget: int)
    requires |c| == |items| && m <= |items|
  {
    Size(f, items, c, m) <= budget
  }

  function Saving(item: Item): int {
    item.blobSize - item.fileSize
  }

  function Count(c: Choice, m: nat): (k: nat)
    requires m <= |c|
    ensures k <= m
  {
    if m == 0 then 0 else Count(c, m - 1) + if c[m - 1] then 1 else 0
  }

  /** The first blob of the first m items with the largest positive saving, -1 if none saves. */
  function BestIndex(items: seq<Item>, c: Choice, m: nat): (b: int)
    requires |c| == |items| && m <= |items|
    ensures -1 <= b < m
    ensures 0 <= b ==> items[b].blob && !c[b] && 0 < Saving(items[b])
    ensures forall i :: 0 <= i < m && items[i].blob && !c[i] ==>
              Saving(items[i]) <= if b < 0 then 0 else Saving(items[b])
  {
    if m == 0 then -1 else
    var b := BestIndex(items, c, m - 1);
    var bestSaving := if b < 0 then 0 else Saving(items[b]);
    if items[m - 1].blob && !c[m - 1] && Saving(items[m - 1]) > bestSaving then m - 1 else b
  }

  /** What the downgrading loop computes from choice c over the first m items. */
  function Greedy(f: Framing, items: seq<Item>, c: Choice, m: nat, budget: int): (g: Choice)
    requires |c| == |items| && m <= |items|
    ensures |g| == |items|
    decreases m - Count(c, m)
  {
    var b := BestIndex(items, c, m);
    if Fits(f, items, c, m, budget) || b < 0 then c
    else
      CountUpdate(c, m, b, true);
      Greedy(f, items, c[b := true], m, budget)
  }

  /** What the item-by-item variant computes: the choice after all items from j on were added,
      or nothing when the frame error is raised. */
  function Incremental(f: Framing, items: seq<Item>, c: Choice, j: nat, budget: int): (r: (bool, Choice))
    requires |c| == |items| && j <= |items|
    ensures |r.1| == |items|
    decreases |items| - j
  {
    if j == |items| then (true, c)
    else
      var g := Greedy(f, items, c, j + 1, budget);
      if Fits(f, items, g, j + 1, budget) then Incremental(f, items, g, j + 1, budget) else (false, g)
  }

  // ---------------------------------------------------------------- sizes

  lemma {:induction false} DigitsMonotone(x: nat, y: nat)
    requires x <= y
    ensures Digits(x) <= Digits(y)
  {
    if 10 <= x { DigitsMonotone(x / 10, y / 10); }
  }

  /** The framed size is strictly increasing in the bytes of the list, so savings measured on
      frames order blobs as savings measured on elements do. */
  lemma FrameStrictlyIncreasing(f: Framing, x: nat, y: nat, n: nat)
    requires x < y
    ensures FrameSize(f, x, n) < FrameSize(f, y, n)
  {
    if f.Send? {
      DigitsMonotone(f.envelope + ListSize(x, n), f.envelope + ListSize(y, n));
    }
  }

  lemma FrameGrows(f: Framing, x: nat, y: nat, n: nat, k: nat)
    requires x <= y && n <= k
    ensures FrameSize(f, x, n) <= FrameSize(f, y, k)
  {
    if f.Send? {
      DigitsMonotone(f.envelope + ListSize(x, n), f.envelope + ListSize(y, k));
    }
  }

  lemma {:induction false} CountUpdate(c: Choice, m: nat, b: nat, v: bool)
    requires b < m <= |c| && c[b] != v
    ensures Count(c[b := v], m) == Count(c, m) + if v then 1 else -1
  {
    if b < m - 1 {
      CountUpdate(c, m - 1, b, v);
    } else {
      CountSame(c, c[b := v], m - 1);
    }
  }

  lemma {:induction false} CountSame(c: Choice, d: Choice, m: nat)
    requires m <= |c| && m <= |d| && c[..m] == d[..m]
    ensures Count(c, m) == Count(d, m)
  {
    if m > 0 {
      assert c[m - 1] == c[..m][m - 1] == d[m - 1];
      assert c[..m - 1] == c[..m][..m - 1] == d[..m - 1];
      CountSame(c, d, m - 1);
    }
  }

  lemma {:induction false} CountMonotone(c: Choice, d: Choice, m: nat)
    requires m <= |c| == |d| && forall i :: 0 <= i < m && c[i] ==> d[i]
    ensures Count(c, m) <= Count(d, m)
  {
    if m > 0 { CountMonotone(c, d, m - 1); }
  }

  lemma {:induction false} SumSame(items: seq<Item>, c: Choice, d: Choice, m: nat)
    requires |c| == |d| == |items| && m <= |items| && c[..m] == d[..m]
    ensures Sum(items, c, m) == Sum(items, d, m)
  {
    if m > 0 {
      assert c[m - 1] == c[..m][m - 1] == d[m - 1];
      assert c[..m - 1] == c[..m][..m - 1] == d[..m - 1];
      SumSame(items, c, d, m - 1);
    }
  }

  lemma {:induction false} SumUpdate(items: seq<Item>, c: Choice, m: nat, b: nat, v: bool)
    requires |c| == |items| && b < m <= |items| && items[b].blob && c[b] != v
    ensures Sum(items, c[b := v], m) == Sum(items, c, m) + if v then -Saving(items[b]) else Saving(items[b])
  {
    if b < m - 1 {
      SumUpdate(items, c, m - 1, b, v);
    } else {
      SumSame(items, c, c[b := v], m - 1);
    }
  }

  lemma {:induction false} SumGrows(items: seq<Item>, c: Choice, m: nat, n: nat)
    requires |c| == |items| && m <= n <= |items|
    ensures Sum(items, c, m) <= Sum(items, c, n)
    decreases n
  {
    if m < n { SumGrows(items, c, m, n - 1); }
  }

  lemma FitsEveryPrefix(f: Framing, items: seq<Item>, c: Choice, m: nat, n: nat, budget: int)
    requires |c| == |items| && m <= n <= |items| && Fits(f, items, c, n, budget)
    ensures Fits(f, items, c, m, budget)
  {
    SumGrows(items, c, m, n);
    FrameGrows(f, Sum(items, c, m), Sum(items, c, n), m, n);
  }

  // ---------------------------------------------------------------- the exchange argument

  ghost predicate Within(g: Choice, s: Choice) {
    |g| == |s| && forall i :: 0 <= i < |g| && g[i] ==> s[i]
  }

  /** The rival choice s fits every stage from m on. */
  ghost predicate FitsFrom(f: Framing, items: seq<Item>, s: Choice, m: nat, budget: int)
    requires m <= |items|
  {
    Legal(items, s) && forall j :: m <= j <= |items| ==> Fits(f, items, s, j, budget)
  }

  /** A choice that extends g and is smaller turned some blob that saves bytes. */
  lemma {:induction false} FindSaving(items: seq<Item>, g: Choice, s: Choice, m: nat) returns (x: nat)
    requires Legal(items, s) && Within(g, s) && m <= |items|
    requires Sum(items, s, m) < Sum(items, g, m)
    ensures x < m && s[x] && !g[x] && items[x].blob && 0 < Saving(items[x])
  {
    if s[m - 1] && !g[m - 1] && 0 < Saving(items[m - 1]) {
      x := m - 1;
    } else {
      x := FindSaving(items, g, s, m - 1);
    }
  }

  lemma SmallerSum(f: Framing, items: seq<Item>, g: Choice, s: Choice, m: nat, budget: int)
    requires |g| == |s| == |items| && m <= |items|
    requires Fits(f, items, s, m, budget) && !Fits(f, items, g, m, budget)
    ensures Sum(items, s, m) < Sum(items, g, m)
  {
    if Sum(items, g, m) <= Sum(items, s, m) {
      FrameGrows(f, Sum(items, g, m), Sum(items, s, m), m, m);
    }
  }

  /** One greedy pick costs a rival nothing: it can be exchanged into the rival. */
  lemma Exchange(f: Framing, items: seq<Item>, g: Choice, s: Choice, m: nat, budget: int)
    returns (s': Choice)
    requires m <= |items| && Within(g, s) && FitsFrom(f, items, s, m, budget)
    requires !Fits(f, items, g, m, budget)
    ensures var b := BestIndex(items, g, m);
            && 0 <= b
            && Within(g[b := true], s') && FitsFrom(f, items, s', m, budget)
            && Count(s', |items|) == Count(s, |items|)
  {
    SmallerSum(f, items, g, s, m, budget);
    var x := FindSaving(items, g, s, m);
    var b := BestIndex(items, g, m);
    if s[b] {
      s' := s;
    } else {
      var t := s[x := false];
      s' := t[b := true];
      CountUpdate(s, |items|, x, false);
      CountUpdate(t, |items|, b, true);
      forall j | m <= j <= |items| ensures Fits(f, items, s', j, budget) {
        SumUpdate(items, s, j, x, false);
        SumUpdate(items, t, j, b, true);
        assert Fits(f, items, s, j, budget);
        FrameGrows(f, Sum(items, s', j), Sum(items, s, j), j, j);
      }
    }
  }

  /** The loop ends in a fit whenever some extension of its start fits, and what it picked can
      be exchanged into that extension without making it larger. */
  lemma {:induction false} GreedyAgainst(f: Framing, items: seq<Item>, c: Choice, s: Choice, m: nat, budget: int)
    returns (s': Choice)
    requires m <= |items| && Within(c, s) && FitsFrom(f, items, s, m, budget)
    ensures var g := Greedy(f, items, c, m, budget);
            && Fits(f, items, g, m, budget)
            && Within(g, s') && FitsFrom(f, items, s', m, budget)
            && Count(s', |items|) == Count(s, |items|)
    decreases m - Count(c, m)
  {
    if Fits(f, items, c, m, budget) {
      s' := s;
    } else {
      var b := BestIndex(items, c, m);
      var t := Exchange(f, items, c, s, m, budget);
      CountUpdate(c, m, b, true);
      s' := GreedyAgainst(f, items, c[b := true], t, m, budget);
    }
  }

  lemma {:induction false} GreedyLegal(f: Framing, items: seq<Item>, c: Choice, m: nat, budget: int)
    requires m <= |items| && Legal(items, c)
    ensures Legal(items, Greedy(f, items, c, m, budget))
    decreases m - Count(c, m)
  {
    var b := BestIndex(items, c, m);
    if !Fits(f, items, c, m, budget) && 0 <= b {
      CountUpdate(c, m, b, true);
      GreedyLegal(f, items, c[b := true], m, budget);
    }
  }

  /** `sdk_attachments_for_send`: a fit is returned exactly when some choice fits, and no
      fitting choice turns fewer blobs into file references. */
  lemma SendIsOptimal(f: Framing, items: seq<Item>, budget: int)
    ensures var g := Greedy(f, items, NoDowngrade(|items|), |items|, budget);
            && Legal(items, g)
            && (Size(f, items, g, |items|) <= budget <==>
                exists s :: Legal(items, s) && Size(f, items, s, |items|) <= budget)
            && forall s :: Legal(items, s) && Size(f, items, s, |items|) <= budget ==>
                 Count(g, |items|) <= Count(s, |items|)
  {
    var c, n := NoDowngrade(|items|), |items|;
    var g := Greedy(f, items, c, n, budget);
    GreedyLegal(f, items, c, n, budget);
    forall s | Legal(items, s) && Fits(f, items, s, n, budget)
      ensures Fits(f, items, g, n, budget) && Count(g, n) <= Count(s, n)
    {
      var s' := GreedyAgainst(f, items, c, s, n, budget);
      CountMonotone(g, s', n);
    }
  }

  lemma {:induction false} IncrementalAgainst(f: Framing, items: seq<Item>, c: Choice, s: Choice, j: nat, budget: int)
    returns (s': Choice)
    requires j <= |items| && Within(c, s) && FitsFrom(f, items, s, j, budget)
    ensures var r := Incremental(f, items, c, j, budget);
            && r.0 && Within(r.1, s') && Count(s', |items|) == Count(s, |items|)
    decreases |items| - j
  {
    if j == |items| {
      s' := s;
    } else {
      var t := GreedyAgainst(f, items, c, s, j + 1, budget);
      s' := IncrementalAgainst(f, items, Greedy(f, items, c, j + 1, budget), t, j + 1, budget);
    }
  }

  lemma {:induction false} IncrementalSound(f: Framing, items: seq<Item>, c: Choice, j: nat, budget: int)
    requires j <= |items| && Legal(items, c)
    requires 0 < j ==> Fits(f, items, c, j, budget)
    ensures var r := Incremental(f, items, c, j, budget);
            Legal(items, r.1) && (r.0 && 0 < |items| ==> Fits(f, items, r.1, |items|, budget))
    decreases |items| - j
  {
    if j < |items| {
      var g := Greedy(f, items, c, j + 1, budget);
      GreedyLegal(f, items, c, j + 1, budget);
      if Fits(f, items, g, j + 1, budget) {
        IncrementalSound(f, items, g, j + 1, budget);
      }
    }
  }

  /** `sdk_attachments`: adding the items one by one, without ever restoring a blob, raises the
      frame error exactly when no choice for the whole list fits, and still turns the fewest
      blobs. An empty list is never measured, so it never raises. */
  lemma IncrementalIsOptimal(f: Framing, items: seq<Item>, budget: int)
    requires items != []
    ensures var r := Incremental(f, items, NoDowngrade(|items|), 0, budget);
            && Legal(items, r.1)
            && (r.0 <==> exists s :: Legal(items, s) && Size(f, items, s, |items|) <= budget)
            && (r.0 ==> Size(f, items, r.1, |items|) <= budget)
            && (r.0 ==> forall s :: Legal(items, s) && Size(f, items, s, |items|) <= budget ==>
                  Count(r.1, |items|) <= Count(s, |items|))
  {
    var c, n := NoDowngrade(|items|), |items|;
    var r := Incremental(f, items, c, 0, budget);
    IncrementalSound(f, items, c, 0, budget);
    forall s | Legal(items, s) && Fits(f, items, s, n, budget)
      ensures r.0 && Count(r.1, n) <= Count(s, n)
    {
      forall j | 0 <= j <= n ensures Fits(f, items, s, j, budget) {
        FitsEveryPrefix(f, items, s, j, n, budget);
      }
      var s' := IncrementalAgainst(f, items, c, s, 0, budget);
      CountMonotone(r.1, s', n);
    }
  }

  // ---------------------------------------------------------------- the loops themselves

  /** `_downgrade_blobs_by_savings` over the first m items: measures every candidate list with
      the size function and keeps the largest saving. */
  method DowngradeBlobsBySavings(f: Framing, items: seq<Item>, values: Choice, m: nat, budget: int)
    returns (current: Choice, currentSize: nat)
    requires |values| == |items| && m <= |items|
    ensures current == Greedy(f, items, values, m, budget)
    ensures currentSize == Size(f, items, current, m)
  {
    current := values;
    currentSize := Size(f, items, current, m);
    while currentSize > budget
      invariant |current| == |items|
      invariant currentSize == Size(f, items, current, m)
      invariant Greedy(f, items, current, m, budget) == Greedy(f, items, values, m, budget)
      decreases m - Count(current, m)
    {
      var bestIndex, bestSize, bestSaving := -1, currentSize, 0;
      for index := 0 to m
        invariant bestIndex == BestIndex(items, current, index)
        invariant bestIndex < 0 ==> bestSaving == 0
        invariant 0 <= bestIndex ==>
          bestSize == Size(f, items, current[bestIndex := true], m) && bestSaving == currentSize - bestSize
      {
        if items[index].blob && !current[index] {
          var candidate := current[index := true];
          var candidateSize := Size(f, items, candidate, m);
          var saving := currentSize - candidateSize;
          CompareSavings(f, items, current, m, index, bestIndex);
          if saving > bestSaving {
            bestIndex, bestSize, bestSaving := index, candidateSize, saving;
          }
        }
      }
      if bestIndex < 0 { break; }
      CountUpdate(current, m, bestIndex, true);
      current := current[bestIndex := true];
      currentSize := bestSize;
    }
  }

  /** Frame savings compare as element savings do. */
  lemma CompareSavings(f: Framing, items: seq<Item>, c: Choice, m: nat, i: nat, b: int)
    requires |c| == |items| && i < m <= |items| && items[i].blob && !c[i]
    requires -1 <= b < m && (0 <= b ==> items[b].blob && !c[b] && 0 < Saving(items[b]))
    ensures var frameSaving := Size(f, items, c, m) - Size(f, items, c[i := true], m);
            && (b < 0 ==> (frameSaving > 0 <==> Saving(items[i]) > 0))
            && (0 <= b ==> (frameSaving > Size(f, items, c, m) - Size(f, items, c[b := true], m) <==>
                            Saving(items[i]) > Saving(items[b])))
  {
    SumUpdate(items, c, m, i, true);
    var before, after := Sum(items, c, m), Sum(items, c[i := true], m);
    if after < before { FrameStrictlyIncreasing(f, after, before, m); }
    if before < after { FrameStrictlyIncreasing(f, before, after, m); }
    if 0 <= b {
      SumUpdate(items, c, m, b, true);
      var best := Sum(items, c[b := true], m);
      if after < best { FrameStrictlyIncreasing(f, after, best, m); }
      if best < after { FrameStrictlyIncreasing(f, best, after, m); }
    }
  }

  /** `sdk_attachments`: ok is false when the frame error is raised. */
  method SdkAttachments(items: seq<Item>, frameLimit: int) returns (ok: bool, result: Choice)
    ensures (ok, result) == Incremental(Request, items, NoDowngrade(|items|), 0, if frameLimit < 0 then 0 else frameLimit)
    ensures items == [] ==> ok
    ensures items != [] ==>
      && (ok <==> exists s :: Legal(items, s) && Size(Request, items, s, |items|) <= frameLimit)
      && (ok ==> Legal(items, result) && Size(Request, items, result, |items|) <= frameLimit)
      && (ok ==> forall s :: Legal(items, s) && Size(Request, items, s, |items|) <= frameLimit ==>
            Count(result, |items|) <= Count(s, |items|))
  {
    var budget := if frameLimit < 0 then 0 else frameLimit;
    if items != [] { IncrementalIsOptimal(Request, items, budget); }
    result := NoDowngrade(|items|);
    for j := 0 to |items|
      invariant |result| == |items|
      invariant Incremental(Request, items, result, j, budget) ==
                Incremental(Request, items, NoDowngrade(|items|), 0, budget)
    {
      var proposed, requestSize := DowngradeBlobsBySavings(Request, items, result, j + 1, budget);
      if requestSize > budget {
        return false, proposed;
      }
      result := proposed;
    }
    ok := true;
  }

  /** `sdk_attachments_for_send`: ok is false when the complete frame still exceeds the limit. */
  method SdkAttachmentsForSend(items: seq<Item>, envelope: nat, frameLimit: int)
    returns (ok: bool, result: Choice)
    ensures result == Greedy(Send(envelope), items, NoDowngrade(|items|), |items|, frameLimit)
    ensures ok <==> exists s :: Legal(items, s) && Size(Send(envelope), items, s, |items|) <= frameLimit
    ensures ok ==> Legal(items, result) && Size(Send(envelope), items, result, |items|) <= frameLimit
    ensures ok ==> forall s :: Legal(items, s) && Size(Send(envelope), items, s, |items|) <= frameLimit ==>
      Count(result, |items|) <= Count(s, |items|)
  {
    var size: nat;
    result, size := DowngradeBlobsBySavings(Send(envelope), items, NoDowngrade(|items|), |items|, frameLimit);
    SendIsOptimal(Send(envelope), items, frameLimit);
    ok := size <= frameLimit;
  }
}
