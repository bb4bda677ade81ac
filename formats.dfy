/**
 * The format listing the extraction library hands back, the filter that keeps
 * the video streams of it, and the numbered-menu selection over what is kept.
 */
module Formats {
  import opened Wrappers

  /** One stream descriptor. `height` (vertical resolution) is missing for
      audio-only streams; `description` and `tbr` (average bitrate) are only shown
      in the menu. */
  datatype Descriptor = Descriptor(formatId: string, description: string, height: Option<int>, tbr: Option<real>)

  /** A descriptor counts as video exactly when its height is present (a height
      of 0 counts: only a missing height is dropped). */
  predicate IsVideo(d: Descriptor) {
    d.height.Some?
  }

  /** The descriptors of `formats` that are video streams, in listing order. */
  function FilterVideoFormats(formats: seq<Descriptor>): (r: seq<Descriptor>)
    ensures |r| <= |formats|
    ensures forall d :: d in r ==> d in formats && IsVideo(d)
  {
    if formats == [] then []
    else (if IsVideo(formats[0]) then [formats[0]] else []) + FilterVideoFormats(formats[1..])
  }

  /** The positions of the video descriptors of `formats`, in increasing order:
      a reference description of what the filter keeps. */
  function VideoPositions(formats: seq<Descriptor>): seq<nat>
  {
    if formats == [] then []
    else
      var n := |formats| - 1;
      VideoPositions(formats[..n]) + (if IsVideo(formats[n]) then [n] else [])
  }

  lemma {:induction false} FilterAppend(a: seq<Descriptor>, b: seq<Descriptor>)
    ensures FilterVideoFormats(a + b) == FilterVideoFormats(a) + FilterVideoFormats(b)
  {
    if a == [] {
      assert a + b == b;
    } else {
      assert (a + b)[0] == a[0];
      assert (a + b)[1..] == a[1..] + b;
      FilterAppend(a[1..], b);
    }
  }

  /** The filter keeps a descriptor if and only if it is listed and is video. */
  lemma {:induction false} FilterMembership(formats: seq<Descriptor>, d: Descriptor)
    ensures d in FilterVideoFormats(formats) <==> d in formats && IsVideo(d)
  {
    if formats != [] {
      FilterMembership(formats[1..], d);
      assert formats == [formats[0]] + formats[1..];
    }
  }

  /** The positions are in range, strictly increasing, and are exactly those
      of the video descriptors. */
  lemma {:induction false} VideoPositionsExact(formats: seq<Descriptor>)
    ensures var p := VideoPositions(formats);
      && (forall k :: 0 <= k < |p| ==> p[k] < |formats|)
      && (forall k, l :: 0 <= k < l < |p| ==> p[k] < p[l])
      && (forall i :: 0 <= i < |formats| ==> (i in p <==> IsVideo(formats[i])))
  {
    if formats != [] {
      var n := |formats| - 1;
      var init := formats[..n];
      VideoPositionsExact(init);
      var q := VideoPositions(init);
      assert forall i :: 0 <= i < n ==> init[i] == formats[i];
      assert n !in q;
    }
  }

  /** The filter's result, element by element, is the listing read at the
      reference positions. */
  lemma {:induction false} FilterAtVideoPositions(formats: seq<Descriptor>)
    ensures var p := VideoPositions(formats);
      && |p| == |FilterVideoFormats(formats)|
      && forall k :: 0 <= k < |p| ==> p[k] < |formats| && FilterVideoFormats(formats)[k] == formats[p[k]]
  {
    if formats != [] {
      var n := |formats| - 1;
      var init := formats[..n];
      FilterAtVideoPositions(init);
      VideoPositionsExact(init);
      assert formats == init + [formats[n]];
      FilterAppend(init, [formats[n]]);
      var p := VideoPositions(formats);
      var q := VideoPositions(init);
      var f := FilterVideoFormats(formats);
      var fi := FilterVideoFormats(init);
      assert f == fi + (if IsVideo(formats[n]) then [formats[n]] else []);
      assert p == q + (if IsVideo(formats[n]) then [n] else []);
      forall k | 0 <= k < |p|
        ensures p[k] < |formats| && f[k] == formats[p[k]]
      {
        if k < |q| {
          assert p[k] == q[k] && f[k] == fi[k] && fi[k] == init[q[k]];
        }
      }
    }
  }

  /** The filter's result is exactly the subsequence of the listing at the
      positions of its video descriptors: every video descriptor is kept, no
      other is, and the listing order is preserved. */
  lemma FilterIsVideoSubsequence(formats: seq<Descriptor>)
    ensures var p := VideoPositions(formats);
      && |p| == |FilterVideoFormats(formats)|
      && (forall k :: 0 <= k < |p| ==> p[k] < |formats| && FilterVideoFormats(formats)[k] == formats[p[k]])
      && (forall k, l :: 0 <= k < l < |p| ==> p[k] < p[l])
      && (forall i :: 0 <= i < |formats| ==> (i in p <==> IsVideo(formats[i])))
  {
    VideoPositionsExact(formats);
    FilterAtVideoPositions(formats);
  }

  /** A listing made only of video descriptors passes the filter unchanged. */
  lemma {:induction false} FilterKeepsAllVideo(formats: seq<Descriptor>)
    requires forall d :: d in formats ==> IsVideo(d)
    ensures FilterVideoFormats(formats) == formats
  {
    if formats != [] {
      assert formats[0] in formats;
      FilterKeepsAllVideo(formats[1..]);
      assert formats == [formats[0]] + formats[1..];
    }
  }

  /** Filtering twice gives what filtering once gives. */
  lemma FilterIdempotent(formats: seq<Descriptor>)
    ensures FilterVideoFormats(FilterVideoFormats(formats)) == FilterVideoFormats(formats)
  {
    FilterKeepsAllVideo(FilterVideoFormats(formats));
  }

  /** The filter's result is empty exactly when no listed descriptor is video. */
  lemma FilterEmptyIff(formats: seq<Descriptor>)
    ensures FilterVideoFormats(formats) == [] <==> forall d :: d in formats ==> !IsVideo(d)
  {
    if FilterVideoFormats(formats) == [] {
      forall d | d in formats
        ensures !IsVideo(d)
      {
        FilterMembership(formats, d);
      }
    }
  }

  /** Resolves a 1-based menu number to the format identifier shown at that
      number; any number outside the menu gives no selection, without the menu
      being indexed. */
  function ChooseFormat(menu: seq<Descriptor>, number: int): (r: Option<string>)
    ensures r.Some? <==> 1 <= number <= |menu|
    ensures r.Some? ==> r.value == menu[number - 1].formatId
  {
    var choice := number - 1;
    if 0 <= choice < |menu| then Some(menu[choice].formatId) else None
  }

  /** A selection made from the filtered listing names a video descriptor of
      the original listing. */
  lemma ChosenFormatIsListedVideo(formats: seq<Descriptor>, number: int)
    ensures var r := ChooseFormat(FilterVideoFormats(formats), number);
      r.Some? ==> exists d :: d in formats && IsVideo(d) && d.formatId == r.value
  {
    var menu := FilterVideoFormats(formats);
    if 1 <= number <= |menu| {
      var d := menu[number - 1];
      FilterMembership(formats, d);
    }
  }

  /** Every video descriptor of the listing can be selected by some menu number. */
  lemma EveryVideoFormatSelectable(formats: seq<Descriptor>, d: Descriptor)
    requires d in formats && IsVideo(d)
    ensures exists number :: ChooseFormat(FilterVideoFormats(formats), number) == Some(d.formatId)
  {
    var menu := FilterVideoFormats(formats);
    FilterMembership(formats, d);
    var k :| 0 <= k < |menu| && menu[k] == d;
    assert ChooseFormat(menu, k + 1) == Some(d.formatId);
  }
}
