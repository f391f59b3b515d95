/** The comma-separated list fields of the forms: skills on the sign-up and
    create-project pages and social links on the profile page are read with
    `text.split(',').map(s => s.trim()).filter(Boolean)`, and the profile page
    shows a stored list with `links.join(', ')`. */
module CommaList {
  import opened Text
  import opened Seqs

  predicate NonEmpty(t: string) { t != [] }

  function TrimAll(parts: seq<string>): (r: seq<string>)
    ensures |r| == |parts|
    ensures forall i :: 0 <= i < |r| ==> r[i] == Trim(parts[i])
  {
    seq(|parts|, i requires 0 <= i < |parts| => Trim(parts[i]))
  }

  /** A trimmed piece of a comma-separated field. */
  predicate Clean(t: string) { IsTrimmed(t) && ',' !in t }

  /** The entries of a comma-separated field: every piece between commas,
      trimmed, with the empty ones dropped, in the order typed. */
  function ParseList(s: string): (r: seq<string>)
    ensures forall i :: 0 <= i < |r| ==> r[i] != [] && IsTrimmed(r[i]) && ',' !in r[i]
    ensures forall t :: t in r <==> t in TrimAll(Split(s, ',')) && t != []
    ensures forall t :: t != [] ==> multiset(r)[t] == multiset(TrimAll(Split(s, ',')))[t]
    ensures IsSubsequence(r, TrimAll(Split(s, ',')))
  {
    var pieces := Split(s, ',');
    var trimmed := TrimAll(pieces);
    forall i | 0 <= i < |trimmed|
      ensures Clean(trimmed[i])
    {
      TrimKeepsOut(pieces[i], ',');
    }
    FilterKeeps(trimmed, NonEmpty, Clean);
    Filter(trimmed, NonEmpty)
  }

  /** `xs.join(', ')`. */
  function JoinList(xs: seq<string>): string {
    Join(xs, ", ")
  }

  /** Every character is a comma or whitespace. */
  predicate CommasAndBlanks(s: string) {
    forall i :: 0 <= i < |s| ==> s[i] == ',' || IsSpace(s[i])
  }

  lemma CommasAndBlanksConcat(a: string, b: string)
    ensures CommasAndBlanks(a + b) <==> CommasAndBlanks(a) && CommasAndBlanks(b)
  {
    assert forall i :: 0 <= i < |a| ==> a[i] == (a + b)[i];
    assert forall i :: 0 <= i < |b| ==> b[i] == (a + b)[|a| + i];
  }

  lemma {:induction false} JoinCommasAndBlanks(ps: seq<string>)
    requires |ps| >= 1
    requires forall i :: 0 <= i < |ps| ==> ',' !in ps[i]
    ensures CommasAndBlanks(Join(ps, [','])) <==> forall i :: 0 <= i < |ps| ==> AllSpace(ps[i])
  {
    if |ps| == 1 {
      assert ',' !in ps[0];
    } else {
      JoinCommasAndBlanks(ps[1..]);
      CommasAndBlanksConcat(ps[0] + [','], Join(ps[1..], [',']));
      CommasAndBlanksConcat(ps[0], [',']);
      assert ',' !in ps[0];
      assert forall i :: 1 <= i < |ps| ==> ps[i] == ps[1..][i - 1];
    }
  }

  lemma DropEmptyNothingIff(ts: seq<string>)
    ensures Filter(ts, NonEmpty) == [] <==> forall i :: 0 <= i < |ts| ==> ts[i] == []
  {
    var r := Filter(ts, NonEmpty);
    if r != [] {
      assert r[0] in ts;
    }
    if exists i :: 0 <= i < |ts| && ts[i] != [] {
      var i :| 0 <= i < |ts| && ts[i] != [];
      assert ts[i] in r;
    }
  }

  lemma TrimAllEmptyIff(pieces: seq<string>)
    ensures (forall i :: 0 <= i < |pieces| ==> TrimAll(pieces)[i] == []) <==>
            (forall i :: 0 <= i < |pieces| ==> AllSpace(pieces[i]))
  {
    forall i | 0 <= i < |pieces|
      ensures TrimAll(pieces)[i] == [] <==> AllSpace(pieces[i])
    {
      TrimEmptyIff(pieces[i]);
    }
  }

  /** A field yields no entries exactly when it holds nothing but commas and
      whitespace. */
  lemma ParseListEmptyIff(s: string)
    ensures ParseList(s) == [] <==> CommasAndBlanks(s)
  {
    var pieces := Split(s, ',');
    JoinSplit(s, ',');
    JoinCommasAndBlanks(pieces);
    TrimAllEmptyIff(pieces);
    DropEmptyNothingIff(TrimAll(pieces));
  }

  /** Every entry after the first, with the blank that `', '` puts before it. */
  function Blanked(ys: seq<string>): (r: seq<string>)
    ensures |r| == |ys| && forall i :: 0 <= i < |ys| ==> r[i] == [' '] + ys[i]
  {
    seq(|ys|, i requires 0 <= i < |ys| => [' '] + ys[i])
  }

  lemma {:induction false} JoinBlanked(ys: seq<string>)
    requires |ys| >= 1
    ensures Join(Blanked(ys), [',']) == [' '] + Join(ys, ", ")
  {
    if |ys| > 1 {
      JoinBlanked(ys[1..]);
      assert Blanked(ys)[1..] == Blanked(ys[1..]);
    }
  }

  /** Joining with `', '` is joining with `','` after blanking every entry but
      the first. */
  lemma JoinListAsPieces(xs: seq<string>)
    requires |xs| >= 1
    ensures JoinList(xs) == Join([xs[0]] + Blanked(xs[1..]), [','])
  {
    if |xs| > 1 {
      JoinBlanked(xs[1..]);
      assert ([xs[0]] + Blanked(xs[1..]))[1..] == Blanked(xs[1..]);
    }
  }

  lemma TrimPieces(xs: seq<string>)
    requires |xs| >= 1
    requires forall i :: 0 <= i < |xs| ==> IsTrimmed(xs[i])
    ensures TrimAll([xs[0]] + Blanked(xs[1..])) == xs
  {
    var pieces := [xs[0]] + Blanked(xs[1..]);
    forall i | 0 <= i < |xs|
      ensures Trim(pieces[i]) == xs[i]
    {
      if i == 0 {
        TrimOfTrimmed(xs[0]);
      } else {
        assert pieces[i] == [' '] + xs[i];
        TrimAfterBlank(xs[i]);
      }
    }
  }

  /** Showing a list of links with `', '` and reading the field back gives the
      same list, for links that are non-empty, comma-free and already trimmed. */
  lemma ParseJoinList(xs: seq<string>)
    requires forall i :: 0 <= i < |xs| ==> xs[i] != [] && IsTrimmed(xs[i]) && ',' !in xs[i]
    ensures ParseList(JoinList(xs)) == xs
  {
    if xs == [] {
      assert TrimAll(Split([], ',')) == [[]];
    } else {
      var pieces := [xs[0]] + Blanked(xs[1..]);
      JoinListAsPieces(xs);
      assert forall i :: 0 <= i < |pieces| ==> ',' !in pieces[i] by {
        forall i | 0 <= i < |pieces|
          ensures ',' !in pieces[i]
        {
          if i > 0 {
            assert pieces[i] == [' '] + xs[i];
          }
        }
      }
      SplitJoin(pieces, ',');
      TrimPieces(xs);
      FilterAll(xs, NonEmpty);
    }
  }
}
