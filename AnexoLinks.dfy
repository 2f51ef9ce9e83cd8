/**
 * The attachment id both attachment extractors read from a link:
 * `href.split('Id_MovimentacaoArquivo=')[-1].split('&')[0]`, that is the
 * text after the last occurrence of the marker, up to the first '&'.
 */
module AnexoLinks {
  import opened StringUtil

  const Marker: string := "Id_MovimentacaoArquivo="

  /**
   * The last piece of `s.split(sep)`: a left-to-right scan that starts a new
   * piece after every non-overlapping occurrence of `sep`; `start` is where
   * the current piece began.
   */
  function LastPieceFrom(s: string, sep: string, i: nat, start: nat): (r: string)
    requires sep != [] && start <= i <= |s|
    ensures |r| <= |s| - start && r == s[|s| - |r|..]
    ensures forall k :: |s| - |r| <= k <= |s| - |sep| && k >= i ==> !OccursAt(s, sep, k)
    decreases |s| - i
  {
    if i + |sep| > |s| then s[start..]
    else if OccursAt(s, sep, i) then LastPieceFrom(s, sep, i + |sep|, i + |sep|)
    else LastPieceFrom(s, sep, i + 1, start)
  }

  /** `s.split(sep)[-1]` */
  function LastPiece(s: string, sep: string): (r: string)
    requires sep != []
    ensures |r| <= |s| && r == s[|s| - |r|..]
  {
    LastPieceFrom(s, sep, 0, 0)
  }

  /** The id of an attachment link. */
  function IdArquivo(href: string): (r: string)
    ensures '&' !in r
  {
    BeforeFirst(LastPiece(href, Marker), '&')
  }

  /** The last piece never contains the separator. */
  lemma {:induction false} LastPieceFromHasNoSep(s: string, sep: string, i: nat, start: nat)
    requires sep != [] && start <= i <= |s|
    requires forall k :: start <= k < i && k + |sep| <= |s| ==> !OccursAt(s, sep, k)
    ensures !Contains(LastPieceFrom(s, sep, i, start), sep)
    decreases |s| - i
  {
    var r := LastPieceFrom(s, sep, i, start);
    if i + |sep| > |s| {
      forall k | 0 <= k && k + |sep| <= |r| ensures !OccursAt(r, sep, k) {
        assert r[k..k + |sep|] == s[start + k..start + k + |sep|];
        assert !OccursAt(s, sep, start + k);
      }
    } else if OccursAt(s, sep, i) {
      LastPieceFromHasNoSep(s, sep, i + |sep|, i + |sep|);
    } else {
      LastPieceFromHasNoSep(s, sep, i + 1, start);
    }
  }

  /** The id comes after the last marker: no marker occurs in the text it was cut from. */
  lemma IdComesAfterLastMarker(href: string)
    ensures !Contains(LastPiece(href, Marker), Marker)
    ensures IdArquivo(href) == LastPiece(href, Marker)[..|IdArquivo(href)|]
  {
    LastPieceFromHasNoSep(href, Marker, 0, 0);
  }

  /** A link with no marker yields the text before its first '&'. */
  lemma NoMarkerWholeLink(href: string)
    requires !Contains(href, Marker)
    ensures LastPiece(href, Marker) == href
  {
    var r := LastPiece(href, Marker);
    if |r| < |href| {
      NoMarkerPieceIsWhole(href, Marker, 0, 0);
    }
  }

  /** Without any occurrence the scan never starts a new piece. */
  lemma {:induction false} NoMarkerPieceIsWhole(s: string, sep: string, i: nat, start: nat)
    requires sep != [] && start <= i <= |s|
    requires !Contains(s, sep)
    ensures LastPieceFrom(s, sep, i, start) == s[start..]
    decreases |s| - i
  {
    if i + |sep| <= |s| {
      assert !OccursAt(s, sep, i);
      NoMarkerPieceIsWhole(s, sep, i + 1, start);
    }
  }

  /** A link ending in the marker and an id without '&' yields that id. */
  lemma MarkerThenId(prefix: string, id: string)
    requires '&' !in id && !Contains(id, Marker)
    requires forall k :: 0 <= k < |prefix| ==> !OccursAt(prefix + Marker + id, Marker, k)
    ensures IdArquivo(prefix + Marker + id) == id
  {
    var s := prefix + Marker + id;
    assert s[|prefix|..|prefix| + |Marker|] == Marker;
    assert s[|prefix| + |Marker|..] == id;
    LastPieceAfter(s, Marker, |prefix|, id);
    BeforeFirstWhole(id, '&');
  }

  /** When the marker occurs at p and no later occurrence overlaps or follows it, the last piece is what follows it. */
  lemma LastPieceAfter(s: string, sep: string, p: nat, rest: string)
    requires sep != [] && p + |sep| <= |s| && OccursAt(s, sep, p) && s[p + |sep|..] == rest
    requires forall k :: 0 <= k < p ==> !OccursAt(s, sep, k)
    requires !Contains(rest, sep)
    ensures LastPiece(s, sep) == rest
  {
    ScanReaches(s, sep, 0, 0, p);
    NoMarkerPieceAfter(s, sep, p + |sep|, p + |sep|, rest);
  }

  /** With no occurrence before p, the scan arrives at p with the piece started at 0. */
  lemma {:induction false} ScanReaches(s: string, sep: string, i: nat, start: nat, p: nat)
    requires sep != [] && start <= i <= p && p + |sep| <= |s| && OccursAt(s, sep, p)
    requires forall k :: i <= k < p ==> !OccursAt(s, sep, k)
    ensures LastPieceFrom(s, sep, i, start) == LastPieceFrom(s, sep, p + |sep|, p + |sep|)
    decreases p - i
  {
    if i < p {
      ScanReaches(s, sep, i + 1, start, p);
    }
  }

  /** After the last occurrence the scan takes the rest as the piece. */
  lemma {:induction false} NoMarkerPieceAfter(s: string, sep: string, i: nat, start: nat, rest: string)
    requires sep != [] && start <= i <= |s| && s[start..] == rest && !Contains(rest, sep)
    ensures LastPieceFrom(s, sep, i, start) == rest
    decreases |s| - i
  {
    if i + |sep| <= |s| {
      NotInSuffix(s, sep, start, i);
      NoMarkerPieceAfter(s, sep, i + 1, start, rest);
    }
  }

  /** An occurrence inside a suffix is an occurrence in that suffix. */
  lemma NotInSuffix(s: string, sep: string, start: nat, i: nat)
    requires start <= i && i + |sep| <= |s| && !Contains(s[start..], sep)
    ensures !OccursAt(s, sep, i)
  {
    var t := s[start..];
    assert t[i - start..i - start + |sep|] == s[i..i + |sep|];
    if OccursAt(s, sep, i) {
      assert OccursAt(t, sep, i - start);
    }
  }

  /** A text without '&' is its own first piece. */
  lemma BeforeFirstWhole(s: string, c: char)
    requires c !in s
    ensures BeforeFirst(s, c) == s
  {
  }
}
