/** Deciding whether a chat input is a web-search command, and the query
    that is then handed to the search collaborator. */
module Search {
  import opened Text

  const Marker: string := "search:"

  /** `prompt.lower().startswith("search:")`: the first seven characters,
      lowered one by one, spell the marker, whatever their case. */
  function IsSearchCommand(input: string): (b: bool)
    ensures b <==> |input| >= |Marker|
                   && forall i :: 0 <= i < |Marker| ==> LowerChar(input[i]) == Marker[i]
  {
    var lowered := Lower(input);
    assert |lowered| >= |Marker| ==> (lowered[..|Marker|] == Marker
      <==> forall i :: 0 <= i < |Marker| ==> lowered[i] == Marker[i]);
    StartsWith(lowered, Marker)
  }

  /** `prompt.replace("search:", "").strip()`: every lower-case marker is
      removed, wherever it stands, and the surrounding whitespace is trimmed;
      a marker written in another case is not removed. */
  function ExtractQuery(input: string): (q: string)
    ensures |q| <= |input|
    ensures q != [] ==> !IsSpace(q[0]) && !IsSpace(q[|q| - 1])
    ensures !Occurs(input, Marker) ==> q == Strip(input)
  {
    RemoveAllUnchanged(input, Marker);
    Strip(RemoveAll(input, Marker))
  }

  /** The expected use, a lower-case marker before a query that holds no
      further marker, yields the query trimmed. */
  lemma PlainSearchQuery(q: string)
    requires !Occurs(q, Marker)
    ensures ExtractQuery(Marker + q) == Strip(q)
  {
    RemoveAllLeading(Marker, q);
    RemoveAllUnchanged(q, Marker);
  }

  /** An input that starts with "Search:" is a search command, yet the
      capitalised marker is not removed: the query still begins with it. */
  lemma CapitalisedMarkerKept(q: string)
    ensures IsSearchCommand("Search:" + q)
    ensures ExtractQuery("Search:" + q) == "Search:" + TrimEnd(RemoveAll(q, Marker))
  {
    var s := "Search:" + q;
    assert IsSearchCommand(s) by {
      forall i | 0 <= i < |Marker| ensures LowerChar(s[i]) == Marker[i] {
        assert s[i] == "Search:"[i];
        if i == 0 { assert LowerChar('S') == 's'; }
      }
    }
    assert RemoveAll(s, Marker) == "Search:" + RemoveAll(q, Marker) by {
      RemoveAllPassOver("Search:", q, Marker);
    }
    StripAfter("Search:", RemoveAll(q, Marker));
  }

  /** The first lower-case marker, wherever it stands, is removed, and the
      text before it is kept whole. */
  lemma FirstMarkerRemoved(a: string, b: string)
    requires forall i :: 0 <= i < |a| ==> !OccursAt(a + (Marker + b), Marker, i)
    ensures ExtractQuery(a + Marker + b) == Strip(a + RemoveAll(b, Marker))
  {
    assert a + Marker + b == a + (Marker + b);
    RemoveAllFirst(a, Marker + b, Marker);
    RemoveAllLeading(Marker, b);
  }

  /** Markers later in the text are removed as well, not only the leading one:
      a search command holding a second marker loses both. */
  lemma InnerMarkerRemoved(a: string, b: string)
    requires forall i :: 0 <= i < |a| ==> !OccursAt(a + (Marker + b), Marker, i)
    ensures ExtractQuery(Marker + a + Marker + b) == Strip(a + RemoveAll(b, Marker))
  {
    var t := a + Marker + b;
    assert Marker + a + Marker + b == Marker + t;
    RemoveAllLeading(Marker, t);
    FirstMarkerRemoved(a, b);
  }

  /** Removal does not rescan what it has produced: taking the marker out of
      "se" + "search:" + "arch:" joins the pieces around it into a new marker,
      which is left at the head of the query. */
  lemma RemovalNotRepeated(q: string)
    ensures ExtractQuery("se" + Marker + "arch:" + q) == Marker + TrimEnd(RemoveAll(q, Marker))
  {
    MarkerReformed(q);
    StripAfter(Marker, RemoveAll(q, Marker));
  }

  /** The removal step of RemovalNotRepeated. */
  lemma MarkerReformed(q: string)
    ensures RemoveAll("se" + Marker + "arch:" + q, Marker) == Marker + RemoveAll(q, Marker)
  {
    var r := RemoveAll(q, Marker);
    var t := "arch:" + q;
    var u := ['e'] + (Marker + t);
    MarkerRemovedBeforeArch(q);
    assert !StartsWith(u, Marker) by {
      assert u[0] == 'e';
    }
    RemoveAllSkip('e', Marker + t, Marker);
    assert !StartsWith(['s'] + u, Marker) by {
      assert (['s'] + u)[2] == u[1] == (Marker + t)[0] == 's';
      assert Marker[2] == 'a';
    }
    RemoveAllSkip('s', u, Marker);
    MarkerRejoined(r);
    MarkerSplit(q);
  }

  /** The marker before "arch:" is removed and "arch:" passed over. */
  lemma MarkerRemovedBeforeArch(q: string)
    ensures RemoveAll(Marker + ("arch:" + q), Marker) == "arch:" + RemoveAll(q, Marker)
  {
    RemoveAllPassOver("arch:", q, Marker);
    RemoveAllLeading(Marker, "arch:" + q);
  }

  /** "se" + marker + "arch:" + q, split into its first two characters. */
  lemma MarkerSplit(q: string)
    ensures "se" + Marker + "arch:" + q == ['s'] + (['e'] + (Marker + ("arch:" + q)))
  {
  }

  /** "s", "e" and "arch:" spell the marker again. */
  lemma MarkerRejoined(r: string)
    ensures ['s'] + (['e'] + ("arch:" + r)) == Marker + r
  {
    assert ['s'] + (['e'] + ("arch:" + r)) == (['s'] + ['e'] + "arch:") + r;
  }

  /** Text that merely mentions the marker later on is sent to the model;
      the marker in any case at the very start is a search. */
  lemma MarkerMustLead()
    ensures !IsSearchCommand("please search: rust")
    ensures IsSearchCommand("SEARCH:rust")
  {
    assert LowerChar("please search: rust"[0]) != Marker[0];
    var s := "SEARCH:rust";
    forall i | 0 <= i < |Marker| ensures LowerChar(s[i]) == Marker[i] {
      if i < 6 { assert 'A' <= s[i] <= 'Z' && s[i] as int + 32 == Marker[i] as int; }
    }
  }
}
