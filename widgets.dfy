/** ImageList::Widget (src/imagelist.h:32-81): the thumbnail list that the
    thumbnail bar and the booru page show, reduced to its list store of
    pixbuf rows and the selection the image list sets on it. */
module Widgets {
  import opened Util

  /** The pixbuf held by a row; Empty is the null pixbuf of a freshly
      appended row. */
  datatype Pixbuf = Empty | Pixels(id: nat)

  /** The rows after set_pixbuf(i, p): only an existing row changes. */
  function SetRow(rows: seq<Pixbuf>, i: int, p: Pixbuf): (r: seq<Pixbuf>)
    ensures |r| == |rows|
    ensures forall k :: 0 <= k < |rows| ==> r[k] == (if k == i then p else rows[k])
  {
    if 0 <= i < |rows| then rows[i := p] else rows
  }

  class Widget {
    /** The rows of m_ListStore, one per image. */
    var rows: seq<Pixbuf>
    /** The last index passed to set_selected. */
    var selected: Option<nat>
    /** The index passed to on_thumbnails_loaded, once all thumbnails are in. */
    var thumbnailsLoadedAt: Option<nat>

    constructor ()
      ensures rows == [] && selected == None && thumbnailsLoadedAt == None
    {
      rows := [];
      selected := None;
      thumbnailsLoadedAt := None;
    }

    /** Widget::clear (src/imagelist.h:50-53). */
    method Clear()
      modifies this`rows
      ensures rows == []
    {
      rows := [];
    }

    /** Widget::set_pixbuf (src/imagelist.h:54-58): the row at `index` takes
        `pixbuf` when the list store has such a row; otherwise nothing happens. */
    method SetPixbuf(index: nat, pixbuf: Pixbuf)
      modifies this`rows
      ensures |rows| == |old(rows)|
      ensures index < |old(rows)| ==> rows == old(rows)[index := pixbuf]
      ensures index >= |old(rows)| ==> rows == old(rows)
    {
      rows := SetRow(rows, index, pixbuf);
    }

    /** Widget::reserve (src/imagelist.h:59-63): appends `s` empty rows. */
    method Reserve(s: nat)
      modifies this`rows
      ensures |rows| == |old(rows)| + s
      ensures rows[..|old(rows)|] == old(rows)
      ensures forall k :: |old(rows)| <= k < |rows| ==> rows[k] == Empty
    {
      var i := 0;
      while i < s
        invariant 0 <= i <= s
        invariant |rows| == |old(rows)| + i
        invariant rows[..|old(rows)|] == old(rows)
        invariant forall k :: |old(rows)| <= k < |rows| ==> rows[k] == Empty
      {
        rows := rows + [Empty];
        i := i + 1;
      }
    }

    /** Widget::erase (src/imagelist.h:68-72): removes row `i` when it exists,
        so that the later rows move down by one. */
    method Erase(i: nat)
      modifies this`rows
      ensures i < |old(rows)| ==> rows == old(rows)[..i] + old(rows)[i + 1..]
      ensures i >= |old(rows)| ==> rows == old(rows)
    {
      if i < |rows| {
        rows := rows[..i] + rows[i + 1..];
      }
    }

    /** Widget::insert (src/imagelist.h:73-78): a new row holding `pixbuf`
        goes before row `i` when that row exists, and at the end otherwise. */
    method Insert(i: nat, pixbuf: Pixbuf)
      modifies this`rows
      ensures |rows| == |old(rows)| + 1
      ensures i < |old(rows)| ==> rows == old(rows)[..i] + [pixbuf] + old(rows)[i..]
      ensures i >= |old(rows)| ==> rows == old(rows) + [pixbuf]
    {
      if i < |rows| {
        rows := rows[..i] + [pixbuf] + rows[i..];
      } else {
        rows := rows + [pixbuf];
      }
    }

    /** The pure virtual set_selected (src/imagelist.h:47), recorded. */
    method SetSelected(i: nat)
      modifies this`selected
      ensures selected == Some(i)
    {
      selected := Some(i);
    }

    /** The widget's on_thumbnails_loaded hook (src/imagelist.cc:335), recorded.
        The Widget class of the header does not declare this member. */
    method OnThumbnailsLoaded(i: nat)
      modifies this`thumbnailsLoadedAt
      ensures thumbnailsLoadedAt == Some(i)
    {
      thumbnailsLoadedAt := Some(i);
    }
  }
}
