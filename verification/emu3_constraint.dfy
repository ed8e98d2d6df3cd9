/** The prefix-constrained decoding rule of the Emu3 image generator: after
    the image-start token, the allowed next tokens follow a grid of `height`
    rows, each `width` visual tokens and one end-of-line, then end-of-frame,
    end-of-image, end-of-sequence, and padding after that. The position of
    the image-start token is remembered per batch entry. */
module Emu3Constraint {
  import opened Wrappers

  /** The helper's settings and its offset cache (batch id to the position of
      that entry's first image-start token). */
  datatype Helper = Helper(
    height: int, width: int,
    imgToken: int, eoiToken: int, eosToken: int, eolToken: int, eofToken: int, padToken: int,
    visualTokens: seq<int>,
    offsetCache: map<int, int>)

  /** Which branch of the cascade an offset falls in. */
  datatype TokenClass = EndOfLine | EndOfFrame | EndOfImage | EndOfSequence | Padding | Visual

  /** The exceptions the call raises: no image-start token to locate, or a
      modulo by zero when `width` is -1. */
  datatype Emu3Error = NoImageToken | ZeroModulus

  /** The helper after a call, and the tokens allowed next. */
  datatype Step = Step(helper: Helper, allowed: seq<int>)

  /** The constructor: the given settings and an empty offset cache. */
  function NewHelper(height: int, width: int, imgToken: int, eoiToken: int, eosToken: int,
                     eolToken: int, eofToken: int, padToken: int, visualTokens: seq<int>): (h: Helper)
    ensures h.offsetCache == map[]
    ensures h.height == height && h.width == width && h.visualTokens == visualTokens
    ensures h.imgToken == imgToken && h.eoiToken == eoiToken && h.eosToken == eosToken
    ensures h.eolToken == eolToken && h.eofToken == eofToken && h.padToken == padToken
  {
    Helper(height, width, imgToken, eoiToken, eosToken, eolToken, eofToken, padToken, visualTokens, map[])
  }

  /** Python's `%`: the remainder takes the sign of the divisor. */
  function PyMod(a: int, b: int): (r: int)
    requires b != 0
    ensures b > 0 ==> 0 <= r < b
    ensures b < 0 ==> b < r <= 0
    ensures r == 0 <==> a % b == 0
  {
    var m := a % b;
    if b > 0 || m == 0 then m else m + b
  }

  /** The offset-th token after the image start, by the helper's cascade:
      the end-of-line test comes first, then the three end markers, then
      padding, and visual tokens otherwise. */
  function Classify(width: int, height: int, offset: int): TokenClass
    requires width + 1 != 0
  {
    var last := (width + 1) * height;
    if PyMod(offset, width + 1) == 0 then EndOfLine
    else if offset == last + 1 then EndOfFrame
    else if offset == last + 2 then EndOfImage
    else if offset == last + 3 then EndOfSequence
    else if offset > last + 3 then Padding
    else Visual
  }

  /** The token ids a branch allows: a single special token, or the whole
      visual vocabulary. */
  function AllowedFor(h: Helper, c: TokenClass): seq<int> {
    match c
    case EndOfLine => [h.eolToken]
    case EndOfFrame => [h.eofToken]
    case EndOfImage => [h.eoiToken]
    case EndOfSequence => [h.eosToken]
    case Padding => [h.padToken]
    case Visual => h.visualTokens
  }

  /** The first position at or after `from` holding `tok`. */
  function FirstIndexFrom(ids: seq<int>, tok: int, from: nat): (r: Option<nat>)
    requires from <= |ids|
    ensures r.Some? ==> from <= r.value < |ids| && ids[r.value] == tok
    ensures r.Some? ==> forall j :: from <= j < r.value ==> ids[j] != tok
    ensures r.None? ==> forall j :: from <= j < |ids| ==> ids[j] != tok
    decreases |ids| - from
  {
    if from == |ids| then None
    else if ids[from] == tok then Some(from)
    else FirstIndexFrom(ids, tok, from + 1)
  }

  /** `__call__`: cache the first image-start position of a new batch entry,
      measure the offset of the next token from it, and return the tokens the
      cascade allows there. */
  function Call(h: Helper, batchId: int, inputIds: seq<int>): (r: Result<Step, Emu3Error>)
    ensures r.Failure? <==> (batchId !in h.offsetCache && h.imgToken !in inputIds) || h.width + 1 == 0
    ensures r.Failure? ==>
      r.error == if batchId !in h.offsetCache && h.imgToken !in inputIds then NoImageToken else ZeroModulus
    ensures r.Success? ==>
      var cache := r.value.helper.offsetCache;
      && r.value.helper == h.(offsetCache := cache)
      && cache.Keys == h.offsetCache.Keys + {batchId}
      && (forall b :: b in h.offsetCache ==> cache[b] == h.offsetCache[b])
      && r.value.allowed == AllowedFor(h, Classify(h.width, h.height, |inputIds| - cache[batchId]))
    ensures r.Success? && batchId !in h.offsetCache ==>
      var pos := r.value.helper.offsetCache[batchId];
      && 0 <= pos < |inputIds| && inputIds[pos] == h.imgToken
      && (forall j :: 0 <= j < pos ==> inputIds[j] != h.imgToken)
  {
    var found := FirstIndexFrom(inputIds, h.imgToken, 0);
    if batchId !in h.offsetCache && found.None? then
      Failure(NoImageToken)
    else
      var cache := if batchId in h.offsetCache then h.offsetCache else h.offsetCache[batchId := found.value];
      if h.width + 1 == 0 then Failure(ZeroModulus)
      else
        var offset := |inputIds| - cache[batchId];
        Success(Step(h.(offsetCache := cache), AllowedFor(h, Classify(h.width, h.height, offset))))
  }

  /** A first call measures a positive offset: the cached position lies
      inside the ids, so the next token is at least one past the image start. */
  lemma FirstCallOffsetPositive(h: Helper, batchId: int, inputIds: seq<int>)
    requires batchId !in h.offsetCache
    requires Call(h, batchId, inputIds).Success?
    ensures |inputIds| - Call(h, batchId, inputIds).value.helper.offsetCache[batchId] >= 1
  {
  }

  /** Once a batch entry is cached, a later call keeps the cache as it is and
      measures from the stored position, whatever the new ids hold. */
  lemma CachedPositionReused(h: Helper, batchId: int, first: seq<int>, later: seq<int>)
    requires Call(h, batchId, first).Success?
    ensures var h1 := Call(h, batchId, first).value.helper;
            var r := Call(h1, batchId, later);
            && r.Success?
            && r.value.helper == h1
            && r.value.allowed == AllowedFor(h, Classify(h.width, h.height, |later| - h1.offsetCache[batchId]))
  {
    var h1 := Call(h, batchId, first).value.helper;
    var r := Call(h1, batchId, later);
    assert r.value.helper.offsetCache == h1.offsetCache;
  }

  /** A product with a non-negative factor keeps the order of the other one. */
  lemma MulMonotone(a: int, b: int, m: int)
    requires a <= b && m >= 0
    ensures a * m <= b * m
  {
    assert b * m - a * m == (b - a) * m;
  }

  /** The remainder of `q * m + j` by `m` is `j` when `0 <= j < m`. */
  lemma ModOfMultiplePlus(q: int, m: int, j: int)
    requires m > 0 && 0 <= j < m
    ensures (q * m + j) % m == j
  {
    var a := q * m + j;
    var d := a / m;
    assert a == d * m + a % m;
    assert (q - d) * m == a % m - j;
    if q - d >= 1 {
      MulMonotone(1, q - d, m);
    } else if q - d <= -1 {
      MulMonotone(q - d, -1, m);
    }
  }

  /** The end-of-line branch is tested first: an offset that is a multiple of
      `width + 1` (in Python's sense) gets end-of-line, even past the image. */
  lemma EndOfLineTakesPriority(width: int, height: int, offset: int)
    requires width + 1 != 0
    requires offset % (width + 1) == 0
    ensures Classify(width, height, offset) == EndOfLine
  {
  }

  /** With at least three visual tokens per row, the three offsets after the
      last row give end-of-frame, end-of-image and end-of-sequence. */
  lemma EndMarkersAfterGrid(width: int, height: int)
    requires width >= 3
    ensures Classify(width, height, (width + 1) * height + 1) == EndOfFrame
    ensures Classify(width, height, (width + 1) * height + 2) == EndOfImage
    ensures Classify(width, height, (width + 1) * height + 3) == EndOfSequence
  {
    assert (width + 1) * height == height * (width + 1);
    ModOfMultiplePlus(height, width + 1, 1);
    ModOfMultiplePlus(height, width + 1, 2);
    ModOfMultiplePlus(height, width + 1, 3);
  }

  /** Because end-of-line is tested first, rows of one visual token never
      produce end-of-image, and rows of two never produce end-of-sequence:
      the marker's offset is a multiple of `width + 1`. */
  lemma NarrowRowsShadowEndMarkers(height: int)
    ensures Classify(1, height, 2 * height + 2) == EndOfLine
    ensures Classify(2, height, 3 * height + 3) == EndOfLine
  {
    ModOfMultiplePlus(height + 1, 2, 0);
    ModOfMultiplePlus(height + 1, 3, 0);
  }

  /** Past end-of-sequence only end-of-line and padding occur, end-of-line
      exactly at the multiples of `width + 1`. */
  lemma AfterImage(width: int, height: int, offset: int)
    requires width >= 0
    requires offset > (width + 1) * height + 3
    ensures Classify(width, height, offset) == (if offset % (width + 1) == 0 then EndOfLine else Padding)
  {
  }

  /** Inside the grid (`width >= 1`), position `j` (1 to `width`) of row `k`
      is a visual token and the position after the row's last is end-of-line. */
  lemma {:induction false} GridRow(width: int, height: int, k: int, j: int)
    requires width >= 1
    requires 0 <= k < height
    requires 1 <= j <= width
    ensures Classify(width, height, k * (width + 1) + j) == Visual
    ensures Classify(width, height, (k + 1) * (width + 1)) == EndOfLine
  {
    ModOfMultiplePlus(k, width + 1, j);
    ModOfMultiplePlus(k + 1, width + 1, 0);
    MulMonotone(k + 1, height, width + 1);
    assert (width + 1) * height == height * (width + 1);
  }

  /** A row of the picture: `width` visual tokens and an end-of-line. */
  function Row(width: nat): (r: seq<TokenClass>)
    ensures |r| == width + 1
    ensures forall i :: 0 <= i < width ==> r[i] == Visual
    ensures r[width] == EndOfLine
  {
    seq(width, _ => Visual) + [EndOfLine]
  }

  /** `n` copies of `s`, one after another. */
  function Repeat<T>(s: seq<T>, n: nat): (r: seq<T>)
    ensures |r| == n * |s|
    decreases n
  {
    if n == 0 then [] else s + Repeat(s, n - 1)
  }

  /** Index `i` of `n` copies of `s` is index `i % |s|` of `s`. */
  lemma {:induction false} RepeatIndex<T>(s: seq<T>, n: nat, i: int)
    requires |s| > 0 && 0 <= i < n * |s|
    ensures Repeat(s, n)[i] == s[i % |s|]
    decreases n
  {
    if i < |s| {
      ModOfMultiplePlus(0, |s|, i);
    } else {
      var k := |s|;
      assert n * k == (n - 1) * k + k;
      var i' := i - k;
      RepeatIndex(s, n - 1, i');
      assert Repeat(s, n)[i] == Repeat(s, n - 1)[i'];
      var q := i' / k;
      var j := i' % k;
      assert i == (q + 1) * k + j;
      ModOfMultiplePlus(q + 1, k, j);
    }
  }

  /** The layout the rule is meant to produce, as a reference: `height` rows,
      then end-of-frame, end-of-image and end-of-sequence. */
  function ImageLayout(width: nat, height: nat): seq<TokenClass> {
    Repeat(Row(width), height) + [EndOfFrame, EndOfImage, EndOfSequence]
  }

  /** Inside the grid only the end-of-line test decides. */
  lemma InsideGrid(width: nat, height: nat, offset: int)
    requires 1 <= offset <= (width + 1) * height
    ensures Classify(width, height, offset) == if offset % (width + 1) == 0 then EndOfLine else Visual
  {
  }

  /** The successor of `i` is a multiple of `m` exactly when `i` is last in
      its block of `m`. */
  lemma SuccessorMultiple(i: nat, m: int)
    requires m > 0
    ensures (i + 1) % m == 0 <==> i % m == m - 1
  {
    var q := i / m;
    var j := i % m;
    assert i == q * m + j;
    if j == m - 1 {
      ModOfMultiplePlus(q + 1, m, 0);
      assert i + 1 == (q + 1) * m + 0;
    } else {
      ModOfMultiplePlus(q, m, j + 1);
      assert i + 1 == q * m + (j + 1);
    }
  }

  /** Inside the grid, the cascade agrees with the rows of the reference
      layout at every offset from 1 to (w+1)h. */
  lemma {:induction false} GridFollowsRows(width: nat, height: nat, offset: int)
    requires 1 <= offset <= (width + 1) * height
    ensures offset - 1 < |Repeat(Row(width), height)|
    ensures Classify(width, height, offset) == Repeat(Row(width), height)[offset - 1]
  {
    var i := offset - 1;
    assert height * |Row(width)| == (width + 1) * height;
    RepeatIndex(Row(width), height, i);
    InsideGrid(width, height, offset);
    SuccessorMultiple(i, width + 1);
  }

  /** For rows of at least three visual tokens, the cascade produces the
      reference layout at every offset from 1 to the end-of-sequence. */
  lemma {:induction false} CascadeFollowsLayout(width: nat, height: nat, offset: int)
    requires width >= 3
    requires 1 <= offset <= (width + 1) * height + 3
    ensures Classify(width, height, offset) == ImageLayout(width, height)[offset - 1]
  {
    var rows := Repeat(Row(width), height);
    assert |rows| == (width + 1) * height;
    if offset <= (width + 1) * height {
      GridFollowsRows(width, height, offset);
      assert ImageLayout(width, height)[offset - 1] == rows[offset - 1];
    } else {
      EndMarkersAfterGrid(width, height);
      assert ImageLayout(width, height)[offset - 1] == [EndOfFrame, EndOfImage, EndOfSequence][offset - 1 - |rows|];
    }
  }
}
