/**
 * Accumulation of a POST body from its `data` chunks in src/main/httpServer.ts, with the
 * cap that destroys the socket. A chunk is the text its bytes decode to, one Dafny
 * character per UTF-16 code unit, so `|s|` is JavaScript's `s.length`.
 */
module RequestBody {
  import opened Wrappers

  /** The body length (in UTF-16 code units) above which the socket is destroyed. */
  const MaxBodyLength: nat := 1_000_000

  /** The chunks appended in arrival order (`body += chunk`). */
  function Concat(chunks: seq<string>): (r: string)
    ensures chunks == [] ==> r == ""
    ensures forall i :: 0 <= i < |chunks| ==> |chunks[i]| <= |r|
    ensures chunks != [] ==> r[|r| - |chunks[|chunks| - 1]|..] == chunks[|chunks| - 1]
  {
    if chunks == [] then "" else Concat(chunks[..|chunks| - 1]) + chunks[|chunks| - 1]
  }

  /** What the `end` handler sees: the whole body, or nothing once the cap was exceeded. */
  function Received(chunks: seq<string>): (r: Option<string>)
    ensures r.None? <==> exists k :: 0 <= k <= |chunks| && |Concat(chunks[..k])| > MaxBodyLength
    ensures r.Some? ==> r.value == Concat(chunks) && |r.value| <= MaxBodyLength
  {
    if |Concat(chunks)| > MaxBodyLength then
      assert chunks[..|chunks|] == chunks;
      None
    else
      assert forall k :: 0 <= k <= |chunks| ==> |Concat(chunks[..k])| <= |Concat(chunks)| by {
        forall k | 0 <= k <= |chunks| {
          ConcatPrefixShorter(chunks, k);
        }
      }
      Some(Concat(chunks))
  }

  /** Each earlier body is a prefix of the later one: chunks are only ever appended. */
  lemma {:induction false} ConcatPrefix(chunks: seq<string>, k: nat)
    requires k <= |chunks|
    ensures Concat(chunks[..k]) <= Concat(chunks)
    decreases |chunks|
  {
    if k < |chunks| {
      var n := |chunks| - 1;
      assert chunks[..k] == chunks[..n][..k];
      ConcatPrefix(chunks[..n], k);
    } else {
      assert chunks[..k] == chunks;
    }
  }

  /** The body only grows as chunks arrive. */
  lemma {:induction false} ConcatPrefixShorter(chunks: seq<string>, k: nat)
    requires k <= |chunks|
    ensures |Concat(chunks[..k])| <= |Concat(chunks)|
    decreases |chunks|
  {
    if k < |chunks| {
      var n := |chunks| - 1;
      assert chunks[..k] == chunks[..n][..k];
      ConcatPrefixShorter(chunks[..n], k);
    } else {
      assert chunks[..k] == chunks;
    }
  }

  /**
   * The `data` handler, over the chunks Node delivers: each chunk is appended and, once
   * the length is strictly above MaxBodyLength, the socket is destroyed, after which no
   * further `data` or `end` event arrives.
   */
  method Accumulate(chunks: seq<string>) returns (body: string, destroyed: bool)
    ensures destroyed <==> Received(chunks).None?
    ensures !destroyed ==> body == Concat(chunks)
    ensures destroyed ==>
      exists k :: 0 < k <= |chunks| && body == Concat(chunks[..k])
        && |Concat(chunks[..k - 1])| <= MaxBodyLength < |body|
  {
    body, destroyed := "", false;
    var i := 0;
    while i < |chunks| && !destroyed
      invariant 0 <= i <= |chunks|
      invariant body == Concat(chunks[..i])
      invariant !destroyed ==> |body| <= MaxBodyLength
      invariant destroyed ==> 0 < i && |Concat(chunks[..i - 1])| <= MaxBodyLength < |body|
    {
      assert chunks[..i + 1][..i] == chunks[..i];
      body := body + chunks[i];
      if |body| > MaxBodyLength {
        destroyed := true;
      }
      i := i + 1;
    }
    if destroyed {
      ConcatPrefixShorter(chunks, i);
    } else {
      assert chunks[..i] == chunks;
    }
  }
}
