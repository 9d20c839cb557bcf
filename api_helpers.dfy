/** The three display helpers of the recordings models: the status-name
    splitter, the category slug and the status-code CSS class. */
module ApiHelpers {
  import opened Wrappers
  import opened PyValues

  // ---------------------------------------------------------------------
  // split_camel_case
  // ---------------------------------------------------------------------

  /** A lower-case letter immediately followed by an upper-case one: what the
      pattern `([a-z])([A-Z])` matches. */
  predicate IsBoundary(a: char, b: char) {
    IsLower(a) && IsUpper(b)
  }

  /** No two adjacent characters of `s` form a boundary. */
  predicate NoBoundary(s: string) {
    forall i :: 0 <= i < |s| - 1 ==> !IsBoundary(s[i], s[i + 1])
  }

  /** The number of boundaries in `s`. */
  function Boundaries(s: string): nat {
    if |s| < 2 then 0
    else (if IsBoundary(s[0], s[1]) then 1 else 0) + Boundaries(s[1..])
  }

  /** `re.sub(r"([a-z])([A-Z])", r"\1 \2", s)`: the substitution scans left to
      right; a match consumes both of its characters and is replaced by them
      with a space between. */
  function SplitCamelCase(s: string): (r: string)
    ensures |s| <= |r|
    ensures 2 * |r| <= 3 * |s|
  {
    if |s| < 2 then s
    else if IsBoundary(s[0], s[1]) then [s[0], ' ', s[1]] + SplitCamelCase(s[2..])
    else [s[0]] + SplitCamelCase(s[1..])
  }

  /** The splitter never touches the first character. */
  lemma SplitCamelCaseHead(s: string)
    requires |s| > 0
    ensures SplitCamelCase(s)[0] == s[0]
  {
  }

  /** `split_camel_case(v)`: a falsy value is returned as it is, a string is
      split, and any other value makes `re.sub` raise TypeError. */
  function SplitCamelCaseValue(v: Value): (r: Result<Value, PyError>)
    ensures !Truthy(v) ==> r == Ok(v)
    ensures v.Str? ==> r == Ok(Str(SplitCamelCase(v.s)))
    ensures r.Err? <==> Truthy(v) && !v.Str?
    ensures r.Err? ==> r.error == TypeError
  {
    if !Truthy(v) then Ok(v)
    else if v.Str? then Ok(Str(SplitCamelCase(v.s)))
    else Err(TypeError)
  }

  /** Exactly one character is added per boundary. */
  lemma {:induction false} SplitCamelCaseLength(s: string)
    ensures |SplitCamelCase(s)| == |s| + Boundaries(s)
  {
    if |s| < 2 {
    } else if IsBoundary(s[0], s[1]) {
      SplitCamelCaseLength(s[2..]);
      assert s[1..][1..] == s[2..];
      assert Boundaries(s[1..]) == Boundaries(s[2..]);
    } else {
      SplitCamelCaseLength(s[1..]);
    }
  }

  /** A string without a boundary is left alone ("Recording" stays as it is). */
  lemma {:induction false} SplitCamelCaseNoBoundary(s: string)
    requires NoBoundary(s)
    ensures SplitCamelCase(s) == s
  {
    if |s| >= 2 {
      assert !IsBoundary(s[0], s[1]);
      SplitCamelCaseNoBoundary(s[1..]);
      assert s == [s[0]] + s[1..];
    }
  }

  /** The result never contains a boundary: every match is separated by a
      space and the character after an upper-case letter cannot start a new one. */
  lemma {:induction false} SplitCamelCaseHasNoBoundary(s: string)
    ensures NoBoundary(SplitCamelCase(s))
  {
    if |s| < 2 {
    } else if IsBoundary(s[0], s[1]) {
      var rest := SplitCamelCase(s[2..]);
      SplitCamelCaseHasNoBoundary(s[2..]);
      var r := [s[0], ' ', s[1]] + rest;
      forall i | 0 <= i < |r| - 1 ensures !IsBoundary(r[i], r[i + 1]) {
        if i >= 3 {
          assert r[i] == rest[i - 3] && r[i + 1] == rest[i - 2];
        }
      }
    } else {
      var rest := SplitCamelCase(s[1..]);
      SplitCamelCaseHasNoBoundary(s[1..]);
      var r := [s[0]] + rest;
      forall i | 0 <= i < |r| - 1 ensures !IsBoundary(r[i], r[i + 1]) {
        if i >= 1 {
          assert r[i] == rest[i - 1] && r[i + 1] == rest[i];
        }
      }
    }
  }

  /** Splitting twice is the same as splitting once. */
  lemma SplitCamelCaseIdempotent(s: string)
    ensures SplitCamelCase(SplitCamelCase(s)) == SplitCamelCase(s)
  {
    SplitCamelCaseHasNoBoundary(s);
    SplitCamelCaseNoBoundary(SplitCamelCase(s));
  }

  /** `s` with every space removed. */
  function WithoutSpaces(s: string): (r: string)
    ensures ' ' !in r
  {
    if s == [] then []
    else (if s[0] == ' ' then [] else [s[0]]) + WithoutSpaces(s[1..])
  }

  lemma {:induction false} WithoutSpacesAppend(a: string, b: string)
    ensures WithoutSpaces(a + b) == WithoutSpaces(a) + WithoutSpaces(b)
  {
    if a == [] {
      assert a + b == b;
    } else {
      assert (a + b)[1..] == a[1..] + b;
      WithoutSpacesAppend(a[1..], b);
    }
  }

  /** Apart from the spaces it inserts, the splitter changes nothing: the
      non-space characters of the result are those of the input, in order. */
  lemma {:induction false} SplitCamelCaseOnlyAddsSpaces(s: string)
    ensures WithoutSpaces(SplitCamelCase(s)) == WithoutSpaces(s)
  {
    if |s| < 2 {
    } else if IsBoundary(s[0], s[1]) {
      SplitCamelCaseOnlyAddsSpaces(s[2..]);
      WithoutSpacesAppend([s[0], ' ', s[1]], SplitCamelCase(s[2..]));
      WithoutSpacesAppend([s[0], s[1]], s[2..]);
      assert s == [s[0], s[1]] + s[2..];
      assert WithoutSpaces([s[0], ' ', s[1]]) == [s[0], s[1]] by {
        assert [s[0], ' ', s[1]][1..] == [' ', s[1]];
        assert [' ', s[1]][1..] == [s[1]];
        assert [s[1]][1..] == [];
      }
      assert WithoutSpaces([s[0], s[1]]) == [s[0], s[1]] by {
        assert [s[0], s[1]][1..] == [s[1]];
        assert [s[1]][1..] == [];
      }
    } else {
      SplitCamelCaseOnlyAddsSpaces(s[1..]);
      WithoutSpacesAppend([s[0]], SplitCamelCase(s[1..]));
      WithoutSpacesAppend([s[0]], s[1..]);
      assert s == [s[0]] + s[1..];
    }
  }

  /** "lower-case letter, space, upper-case letter": the one shape of text that
      the splitter can also produce, so a string containing it cannot be told
      apart from a split one ("a B" and "aB" both split to "a B"). */
  predicate HasSpacedBoundary(s: string) {
    exists i :: 0 <= i < |s| - 2 && IsLower(s[i]) && s[i + 1] == ' ' && IsUpper(s[i + 2])
  }

  /** The inverse of the splitter: drop each space that sits between a
      lower-case and an upper-case letter. */
  function JoinCamelCase(r: string): string {
    if |r| < 3 then r
    else if IsLower(r[0]) && r[1] == ' ' && IsUpper(r[2]) then [r[0], r[2]] + JoinCamelCase(r[3..])
    else [r[0]] + JoinCamelCase(r[1..])
  }

  /** Deleting the inserted spaces gives back the input, for every input that
      does not already contain a spaced boundary of its own. */
  lemma {:induction false} JoinSplitCamelCase(s: string)
    requires !HasSpacedBoundary(s)
    ensures JoinCamelCase(SplitCamelCase(s)) == s
  {
    if |s| < 2 {
    } else if IsBoundary(s[0], s[1]) {
      var rest := SplitCamelCase(s[2..]);
      var r := [s[0], ' ', s[1]] + rest;
      forall i | 0 <= i < |s[2..]| - 2
        ensures !(IsLower(s[2..][i]) && s[2..][i + 1] == ' ' && IsUpper(s[2..][i + 2]))
      {
        assert s[2..][i] == s[i + 2] && s[2..][i + 1] == s[i + 3] && s[2..][i + 2] == s[i + 4];
      }
      JoinSplitCamelCase(s[2..]);
      assert r[3..] == rest;
      assert s == [s[0], s[1]] + s[2..];
    } else {
      var rest := SplitCamelCase(s[1..]);
      var r := [s[0]] + rest;
      forall i | 0 <= i < |s[1..]| - 2
        ensures !(IsLower(s[1..][i]) && s[1..][i + 1] == ' ' && IsUpper(s[1..][i + 2]))
      {
        assert s[1..][i] == s[i + 1] && s[1..][i + 1] == s[i + 2] && s[1..][i + 2] == s[i + 3];
      }
      JoinSplitCamelCase(s[1..]);
      assert r[1..] == rest;
      if |s| >= 3 && s[1] == ' ' {
        // The split of s[1..] starts with that space and then s[2], so a
        // spaced boundary at the head of r would be one of s as well.
        assert rest == [s[1]] + SplitCamelCase(s[2..]);
        assert r[2] == s[2];
      }
      assert s == [s[0]] + s[1..];
    }
  }

  /** The status name of the source's docstring: "WillRecord" splits to
      "Will Record". */
  lemma SplitCamelCaseWillRecord()
    ensures SplitCamelCase("WillRecord") == "Will Record"
  {
    SplitCamelCaseLRecord();
    assert SplitCamelCase("llRecord") == "ll Record" by {
      assert "llRecord"[1..] == "lRecord";
      assert !IsBoundary('l', 'l');
    }
    assert SplitCamelCase("illRecord") == "ill Record" by {
      assert "illRecord"[1..] == "llRecord";
      assert !IsBoundary('i', 'l');
    }
    assert "WillRecord"[1..] == "illRecord";
    assert !IsBoundary('W', 'i');
  }

  /** The one boundary of "WillRecord", between `l` and `R`. */
  lemma SplitCamelCaseLRecord()
    ensures SplitCamelCase("lRecord") == "l Record"
  {
    SplitCamelCaseNoBoundary("ecord");
    assert "lRecord"[2..] == "ecord";
  }

  /** A status name without an internal boundary stays as it is. */
  lemma SplitCamelCaseRecording()
    ensures SplitCamelCase("Recording") == "Recording"
  {
    SplitCamelCaseNoBoundary("Recording");
  }

  // ---------------------------------------------------------------------
  // category_slug
  // ---------------------------------------------------------------------

  /** `p in t` on strings: `p` occurs in `t` as a substring, searched from the left. */
  function Contains(t: string, p: string): (r: bool)
    ensures r ==> |p| <= |t|
    ensures p == [] ==> r
    ensures |p| == |t| ==> (r <==> t == p)
    decreases |t|
  {
    if |t| < |p| then false
    else t[..|p|] == p || Contains(t[1..], p)
  }

  /** `p` occurs in `t` starting at index `i`. */
  ghost predicate OccursAt(t: string, p: string, i: int) {
    0 <= i && i + |p| <= |t| && t[i..i + |p|] == p
  }

  /** The search finds `p` exactly when `p` occurs somewhere in `t`. */
  lemma {:induction false} ContainsIff(t: string, p: string)
    ensures Contains(t, p) <==> exists i :: OccursAt(t, p, i)
    decreases |t|
  {
    if |t| < |p| {
    } else if t[..|p|] == p {
      assert OccursAt(t, p, 0);
    } else {
      ContainsIff(t[1..], p);
      if exists i :: OccursAt(t[1..], p, i) {
        var i :| OccursAt(t[1..], p, i);
        assert t[1..][i..i + |p|] == t[i + 1..i + 1 + |p|];
        assert OccursAt(t, p, i + 1);
      }
      if exists i :: OccursAt(t, p, i) {
        var i :| OccursAt(t, p, i);
        assert i != 0;
        assert t[1..][i - 1..i - 1 + |p|] == t[i..i + |p|];
        assert OccursAt(t[1..], p, i - 1);
      }
    }
  }

  /** `category_slug(text)`: the lower-cased category, except that every
      category mentioning "sport" becomes "sports". */
  function CategorySlug(text: string): (r: string)
    ensures IsLowerCase(r)
    ensures r == "sports" || r == Lower(text)
    ensures |r| == 0 <==> |text| == 0
  {
    var t := Lower(text);
    LowerIsLowerCase(text);
    if Contains(t, "sport") then "sports" else t
  }

  /** The slug is "sports" exactly when "sport" occurs in the lower-cased
      category, and the lower-cased category otherwise. */
  lemma CategorySlugSpec(text: string)
    ensures (exists i :: OccursAt(Lower(text), "sport", i)) ==> CategorySlug(text) == "sports"
    ensures (forall i :: !OccursAt(Lower(text), "sport", i)) ==> CategorySlug(text) == Lower(text)
  {
    ContainsIff(Lower(text), "sport");
  }

  /** The slug ignores letter case. */
  lemma CategorySlugIgnoresCase(text: string)
    ensures CategorySlug(Lower(text)) == CategorySlug(text)
  {
    LowerIdempotent(text);
  }

  /** A slug is its own slug. */
  lemma CategorySlugIdempotent(text: string)
    ensures CategorySlug(CategorySlug(text)) == CategorySlug(text)
  {
    var t := Lower(text);
    LowerIsLowerCase(text);
    if Contains(t, "sport") {
      assert "sports"[..5] == "sport";
      assert Lower("sports") == "sports";
    } else {
      LowerIdempotent(text);
    }
  }

  /** "Playoff Sports" collapses to "sports". */
  lemma CategorySlugPlayoffSports()
    ensures CategorySlug("Playoff Sports") == "sports"
  {
    var t := Lower("Playoff Sports");
    assert t[8..13] == "sport" by {
      assert t[8] == 's' && t[9] == 'p' && t[10] == 'o' && t[11] == 'r' && t[12] == 't';
    }
    assert OccursAt(t, "sport", 8);
    ContainsIff(t, "sport");
  }

  /** "Sitcom" has no "sport" in it, so its slug is the lower-cased name. */
  lemma CategorySlugSitcom()
    ensures CategorySlug("Sitcom") == "sitcom"
  {
    assert Lower("Sitcom") == "sitcom";
    assert !Contains("sitcom", "sport") by {
      assert "sitcom"[..5][1] != "sport"[1];
      assert "sitcom"[1..][..5][0] != "sport"[0];
      assert |"sitcom"[1..][1..]| < 5;
    }
  }

  /** The category of the end-to-end example. */
  lemma CategorySlugDrama()
    ensures CategorySlug("Drama") == "drama"
  {
    assert Lower("Drama") == "drama";
    assert !Contains("drama", "sport") by {
      assert "drama"[..5][0] != "sport"[0];
      assert |"drama"[1..]| < 5;
    }
  }

  // ---------------------------------------------------------------------
  // get_status_class
  // ---------------------------------------------------------------------

  // MythTV recording status codes named in the source.
  const RECORDING: int := 0
  const WILL_RECORD: int := -2
  const CONFLICT: int := -3
  const OFFLINE: int := -5

  const STATUS_RECORDING: string := "status-recording"
  const STATUS_CONFLICT: string := "status-conflict"
  const STATUS_DEFAULT: string := "status-default"

  /** `get_status_class(code)`: the CSS class of a MythTV status code. */
  function StatusClass(code: int): (r: string)
    ensures r == STATUS_RECORDING || r == STATUS_CONFLICT || r == STATUS_DEFAULT
    ensures r == STATUS_RECORDING <==> code == RECORDING || code == WILL_RECORD
    ensures r == STATUS_CONFLICT <==> code == CONFLICT || code == OFFLINE
    ensures r == STATUS_DEFAULT <==> code !in {RECORDING, WILL_RECORD, CONFLICT, OFFLINE}
  {
    if code in [RECORDING, WILL_RECORD] then STATUS_RECORDING
    else if code in [CONFLICT, OFFLINE] then STATUS_CONFLICT
    else STATUS_DEFAULT
  }
}
