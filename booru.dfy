/** What ImageList::load(posts, page) takes from each post of a booru result
    page (src/imagelist.cc:152-174): absolute URLs and the list of tags. */
module Booru {

  /** One post element. The local paths are what the path helpers (basename,
      percent-decoding, build_filename under the site's directory) make of the
      two URLs; they are given here rather than computed. */
  datatype Post = Post(previewUrl: string, fileUrl: string, tags: string, thumbPath: string, imagePath: string)

  /** A URL written relative to the site root (starting with '/') gets the
      site's URL in front (src/imagelist.cc:167-171). An empty URL is left as
      it is: indexing one past the end of a std::string yields '\0'. */
  function AbsoluteUrl(siteUrl: string, url: string): (r: string)
    ensures |url| > 0 && url[0] == '/' ==> r == siteUrl + url
    ensures !(|url| > 0 && url[0] == '/') ==> r == url
    ensures |r| >= |url| && r[|r| - |url|..] == url
  {
    if |url| > 0 && url[0] == '/' then siteUrl + url else url
  }

  /** The characters std::istream skips between words (isspace in the
      "C" locale). */
  predicate IsSpace(c: char)
  {
    c == ' ' || c == '\t' || c == '\n' || c == '\r' || c == '\U{000B}' || c == '\U{000C}'
  }

  /** A word as the stream iterator reads it: non-empty, no white space. */
  predicate IsToken(t: string)
  {
    t != [] && forall j :: 0 <= j < |t| ==> !IsSpace(t[j])
  }

  /** The length of the word at the front of `s`. */
  function WordLength(s: string): (n: nat)
    ensures n <= |s|
    ensures forall j :: 0 <= j < n ==> !IsSpace(s[j])
    ensures n < |s| ==> IsSpace(s[n])
  {
    if s == [] || IsSpace(s[0]) then 0 else 1 + WordLength(s[1..])
  }

  /** The tags of a post: the white-space separated words of its `tags`
      attribute, read with std::istream_iterator<std::string>
      (src/imagelist.cc:163-165). */
  function Tokens(s: string): (ts: seq<string>)
    ensures forall j :: 0 <= j < |ts| ==> IsToken(ts[j])
    decreases |s|
  {
    if s == [] then []
    else if IsSpace(s[0]) then Tokens(s[1..])
    else
      var n := WordLength(s);
      [s[..n]] + Tokens(s[n..])
  }

  /** `s` with its white space removed. */
  function NonSpace(s: string): string
  {
    if s == [] then []
    else if IsSpace(s[0]) then NonSpace(s[1..])
    else [s[0]] + NonSpace(s[1..])
  }

  function Concat(ts: seq<string>): string
  {
    if ts == [] then [] else ts[0] + Concat(ts[1..])
  }

  /** The words joined by single spaces, as a booru writes a tag list. */
  function JoinWords(ts: seq<string>): string
  {
    if ts == [] then []
    else if |ts| == 1 then ts[0]
    else ts[0] + " " + JoinWords(ts[1..])
  }

  lemma {:induction false} NonSpaceAppend(a: string, b: string)
    ensures NonSpace(a + b) == NonSpace(a) + NonSpace(b)
    decreases |a|
  {
    if a == [] {
      assert a + b == b;
    } else {
      assert (a + b)[1..] == a[1..] + b;
      NonSpaceAppend(a[1..], b);
    }
  }

  lemma {:induction false} NonSpaceOfWord(t: string)
    requires forall j :: 0 <= j < |t| ==> !IsSpace(t[j])
    ensures NonSpace(t) == t
    decreases |t|
  {
    if t != [] {
      NonSpaceOfWord(t[1..]);
      assert t == [t[0]] + t[1..];
    }
  }

  /** Splitting into tags loses exactly the white space: the tags, put back
      together, are the attribute's other characters in their order. */
  lemma {:induction false} TokensKeepText(s: string)
    ensures Concat(Tokens(s)) == NonSpace(s)
    decreases |s|
  {
    if s != [] {
      if IsSpace(s[0]) {
        TokensKeepText(s[1..]);
      } else {
        var n := WordLength(s);
        TokensKeepText(s[n..]);
        assert s == s[..n] + s[n..];
        NonSpaceAppend(s[..n], s[n..]);
        NonSpaceOfWord(s[..n]);
        var ts := Tokens(s);
        assert ts == [s[..n]] + Tokens(s[n..]);
        assert ts[1..] == Tokens(s[n..]);
      }
    }
  }

  /** A word followed by white space or nothing is read in one piece. */
  lemma {:induction false} WordLengthOfWord(t: string, rest: string)
    requires IsToken(t)
    requires rest == [] || IsSpace(rest[0])
    ensures WordLength(t + rest) == |t|
    decreases |t|
  {
    assert (t + rest)[1..] == t[1..] + rest;
    if |t| > 1 {
      WordLengthOfWord(t[1..], rest);
    } else {
      assert t[1..] + rest == rest;
    }
  }

  /** A word at the front is read as one tag, and reading goes on after it. */
  lemma TokensAfterWord(t: string, rest: string)
    requires IsToken(t)
    requires rest == [] || IsSpace(rest[0])
    ensures Tokens(t + rest) == [t] + Tokens(rest)
  {
    var s := t + rest;
    WordLengthOfWord(t, rest);
    assert s[..|t|] == t;
    assert s[|t|..] == rest;
  }

  /** A tag list written with single spaces is read back as the same tags. */
  lemma {:induction false} TokensOfJoinedWords(ts: seq<string>)
    requires forall j :: 0 <= j < |ts| ==> IsToken(ts[j])
    ensures Tokens(JoinWords(ts)) == ts
    decreases |ts|
  {
    if |ts| == 1 {
      TokensAfterWord(ts[0], []);
      assert ts[0] + [] == ts[0];
    } else if |ts| > 1 {
      var rest := " " + JoinWords(ts[1..]);
      assert JoinWords(ts) == ts[0] + rest;
      TokensAfterWord(ts[0], rest);
      assert rest[1..] == JoinWords(ts[1..]);
      TokensOfJoinedWords(ts[1..]);
      assert ts == [ts[0]] + ts[1..];
    }
  }
}
