/** The pending-thumbnail queue of ImageList (src/imagelist.h:28, 148) and
    what draining it does to the widget's rows (src/imagelist.cc:319-328). */
module Thumbnails {
  import opened Widgets

  /** A thumbnail loaded for the image at `index`, waiting to be shown. */
  datatype PixbufPair = PixbufPair(index: nat, pixbuf: Pixbuf)

  /** The rows after set_pixbuf has been applied for every pair of `queue`,
      front first. */
  function ApplyPairs(rows: seq<Pixbuf>, queue: seq<PixbufPair>): seq<Pixbuf>
    decreases |queue|
  {
    if queue == [] then rows
    else ApplyPairs(SetRow(rows, queue[0].index, queue[0].pixbuf), queue[1..])
  }

  /** The pixbuf of the last pair in `queue` for row `k`, or `current` when
      no pair names that row. */
  function LastFor(queue: seq<PixbufPair>, k: nat, current: Pixbuf): Pixbuf
    decreases |queue|
  {
    if queue == [] then current
    else if queue[|queue| - 1].index == k then queue[|queue| - 1].pixbuf
    else LastFor(queue[..|queue| - 1], k, current)
  }

  /** The pairs the thumbnail tasks push when none of them is cancelled:
      one per image, for image j its thumbnail thumbs[j]. */
  function Produced(thumbs: seq<Pixbuf>): (q: seq<PixbufPair>)
    ensures |q| == |thumbs|
    ensures forall j :: 0 <= j < |q| ==> q[j] == PixbufPair(j, thumbs[j])
  {
    seq(|thumbs|, j requires 0 <= j < |thumbs| => PixbufPair(j, thumbs[j]))
  }

  /** Looking at a queue with one more pair in front. */
  lemma {:induction false} LastForCons(p: PixbufPair, queue: seq<PixbufPair>, k: nat, current: Pixbuf)
    ensures LastFor([p] + queue, k, current) == LastFor(queue, k, if p.index == k then p.pixbuf else current)
    decreases |queue|
  {
    if queue != [] {
      var n := |queue| - 1;
      assert ([p] + queue)[..|queue|] == [p] + queue[..n];
      if queue[n].index != k {
        LastForCons(p, queue[..n], k, current);
      }
    }
  }

  /** Draining the queue leaves every row with the pixbuf of the last pair
      naming it, and rows no pair names unchanged. */
  lemma {:induction false} LastPairWins(rows: seq<Pixbuf>, queue: seq<PixbufPair>, k: nat)
    requires k < |rows|
    ensures |ApplyPairs(rows, queue)| == |rows|
    ensures ApplyPairs(rows, queue)[k] == LastFor(queue, k, rows[k])
    decreases |queue|
  {
    if queue != [] {
      var next := SetRow(rows, queue[0].index, queue[0].pixbuf);
      LastPairWins(next, queue[1..], k);
      LastForCons(queue[0], queue[1..], k, rows[k]);
      assert [queue[0]] + queue[1..] == queue;
    }
  }

  /** The last pair for a row among those of an uncancelled run is the
      thumbnail of that row's image. */
  lemma {:induction false} LastForProduced(thumbs: seq<Pixbuf>, k: nat, current: Pixbuf)
    ensures LastFor(Produced(thumbs), k, current) == if k < |thumbs| then thumbs[k] else current
    decreases |thumbs|
  {
    if thumbs != [] {
      var n := |thumbs| - 1;
      assert Produced(thumbs)[..n] == Produced(thumbs[..n]);
      if k != n {
        LastForProduced(thumbs[..n], k, current);
      }
    }
  }

  /** When no task was cancelled and the widget has a row per image, draining
      the queue of one run shows every image's thumbnail in its own row. */
  lemma AllThumbnailsApplied(rows: seq<Pixbuf>, thumbs: seq<Pixbuf>)
    requires |thumbs| <= |rows|
    ensures ApplyPairs(rows, Produced(thumbs)) == thumbs + rows[|thumbs|..]
  {
    var r := ApplyPairs(rows, Produced(thumbs));
    if rows != [] {
      LastPairWins(rows, Produced(thumbs), 0);
    }
    forall k | 0 <= k < |rows| ensures r[k] == (thumbs + rows[|thumbs|..])[k] {
      LastPairWins(rows, Produced(thumbs), k);
      LastForProduced(thumbs, k, rows[k]);
    }
  }
}
