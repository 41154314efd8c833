/** Tag and phone normalisation shared by the contact handlers: `normTag`,
    `uniqTags`, `mergeTags` and `parseTagsField` of the import and create
    handlers, `normalizeTags` of the update handler and `normalizePhone`. */
module ContactTags {
  import opened Base
  import opened JsText

  /** `normTag`: trimmed, lower-cased, every whitespace run removed. */
  function NormTag(t: string): (r: string)
    ensures |r| <= |t|
  {
    RemoveSpaces(Lower(Trim(t)))
  }

  /** `normTag` output has no whitespace and no capital letter. */
  lemma NormTagShape(t: string)
    ensures NoSpace(NormTag(t)) && NoUpper(NormTag(t))
  {
    RemoveSpacesNoUpper(Lower(Trim(t)));
  }

  /** A string without whitespace and capitals is its own tag. */
  lemma NormTagFixed(t: string)
    requires NoSpace(t) && NoUpper(t)
    ensures NormTag(t) == t
  {
    TrimNoSpace(t);
    assert Lower(t) == t;
    RemoveSpacesNoSpace(t);
  }

  lemma NormTagIdempotent(t: string)
    ensures NormTag(NormTag(t)) == NormTag(t)
  {
    NormTagShape(t);
    NormTagFixed(NormTag(t));
  }

  /** Every tag normalised: `tags.map(normTag)`. */
  function NormTags(tags: seq<string>): (r: seq<string>)
    ensures |r| == |tags|
    ensures forall i :: 0 <= i < |tags| ==> r[i] == NormTag(tags[i])
  {
    seq(|tags|, i requires 0 <= i < |tags| => NormTag(tags[i]))
  }

  /** A tag as `normTag` leaves it. */
  predicate IsTag(t: string)
  {
    t != "" && NoSpace(t) && NoUpper(t)
  }

  /** `uniqTags`: the non-empty normalised tags, each once, in the order of
      their first occurrence. */
  function UniqTags(tags: seq<string>): (r: seq<string>)
    ensures NoDup(r)
    ensures forall x :: x in r <==> x != "" && x in NormTags(tags)
    ensures forall x :: x in r ==> IsTag(x) && NormTag(x) == x
  {
    NormTagsNormalized(tags);
    DedupeSpec(NonEmpty(NormTags(tags)));
    Dedupe(NonEmpty(NormTags(tags)))
  }

  lemma NormTagsNormalized(tags: seq<string>)
    ensures forall x :: x in NormTags(tags) ==> NormTag(x) == x && NoSpace(x) && NoUpper(x)
  {
    forall x | x in NormTags(tags)
      ensures NormTag(x) == x && NoSpace(x) && NoUpper(x)
    {
      var i :| 0 <= i < |tags| && NormTags(tags)[i] == x;
      NormTagIdempotent(tags[i]);
      NormTagShape(tags[i]);
    }
  }

  /** `uniqTags` keeps first-occurrence order of the normalised tags. */
  lemma UniqTagsOrder(tags: seq<string>)
    ensures forall i, j :: 0 <= i < j < |UniqTags(tags)| ==>
      IndexOf(NonEmpty(NormTags(tags)), UniqTags(tags)[i]) < IndexOf(NonEmpty(NormTags(tags)), UniqTags(tags)[j])
  {
    DedupeFirstOccurrenceOrder(NonEmpty(NormTags(tags)));
  }

  /** A list that is already a list of distinct tags is returned as it is. */
  lemma UniqTagsOfTags(tags: seq<string>)
    requires NoDup(tags) && forall i :: 0 <= i < |tags| ==> IsTag(tags[i])
    ensures UniqTags(tags) == tags
  {
    forall i | 0 <= i < |tags|
      ensures NormTags(tags)[i] == tags[i]
    {
      NormTagFixed(tags[i]);
    }
    assert NormTags(tags) == tags;
    NonEmptyKeeps(tags);
    DedupeNoDup(tags);
  }

  lemma {:induction false} NonEmptyKeeps(s: seq<string>)
    requires "" !in s
    ensures NonEmpty(s) == s
  {
    if s != [] {
      NonEmptyKeeps(s[1..]);
    }
  }

  lemma {:induction false} NonEmptyAppend(s: seq<string>, t: seq<string>)
    ensures NonEmpty(s + t) == NonEmpty(s) + NonEmpty(t)
  {
    if s == [] {
      assert s + t == t;
    } else {
      assert (s + t)[1..] == s[1..] + t;
      NonEmptyAppend(s[1..], t);
    }
  }

  /** The loop of `uniqTags`, with its `seen` set. */
  method UniqTagsLoop(tags: seq<string>) returns (out: seq<string>)
    ensures out == UniqTags(tags)
  {
    out := [];
    var seen: set<string> := {};
    var i := 0;
    assert NormTags(tags[..0]) == [];
    while i < |tags|
      invariant 0 <= i <= |tags|
      invariant out == Dedupe(NonEmpty(NormTags(tags[..i])))
      invariant forall x :: x in seen <==> x in out
    {
      var v := NormTag(tags[i]);
      ghost var next := Dedupe(NonEmpty(NormTags(tags[..i + 1])));
      UniqStep(tags, i);
      assert next == if v == "" || v in out then out else out + [v];
      if v != "" && v !in seen {
        seen := seen + {v};
        out := out + [v];
      }
      assert out == next;
      i := i + 1;
    }
    assert tags[..i] == tags;
  }

  /** One step of the loop: the next normalised tag is added when it is
      non-empty and new. */
  lemma UniqStep(tags: seq<string>, i: nat)
    requires i < |tags|
    ensures var p := Dedupe(NonEmpty(NormTags(tags[..i])));
      var v := NormTag(tags[i]);
      Dedupe(NonEmpty(NormTags(tags[..i + 1]))) == if v == "" || v in p then p else p + [v]
  {
    var v := NormTag(tags[i]);
    var n := NonEmpty(NormTags(tags[..i]));
    NonEmptyTagsSnoc(tags, i);
    if v == "" {
      assert n + [] == n;
    } else {
      DedupeSnoc(n, v);
    }
  }

  /** The non-empty normalised tags of one more tag. */
  lemma NonEmptyTagsSnoc(tags: seq<string>, i: nat)
    requires i < |tags|
    ensures var v := NormTag(tags[i]);
      NonEmpty(NormTags(tags[..i + 1])) == NonEmpty(NormTags(tags[..i])) + (if v == "" then [] else [v])
  {
    var v := NormTag(tags[i]);
    assert tags[..i + 1] == tags[..i] + [tags[i]];
    NormTagsAppend(tags[..i], [tags[i]]);
    assert NormTags([tags[i]]) == [v];
    NonEmptyAppend(NormTags(tags[..i]), [v]);
    assert NonEmpty([v]) == if v == "" then [] else [v];
  }

  lemma DedupeSnoc(p: seq<string>, x: string)
    ensures Dedupe(p + [x]) == if x in Dedupe(p) then Dedupe(p) else Dedupe(p) + [x]
  {
    assert (p + [x])[..|p + [x]| - 1] == p;
  }

  /** Dedupe of a longer list extends the dedupe of its prefix. */
  lemma {:induction false} DedupePrefix(s: seq<string>, t: seq<string>)
    ensures Dedupe(s) <= Dedupe(s + t)
    decreases |t|
  {
    if t == [] {
      assert s + t == s;
    } else {
      var t' := t[..|t| - 1];
      DedupePrefix(s, t');
      assert (s + t)[..|s + t| - 1] == s + t';
    }
  }

  /** `mergeTags`: the existing tags followed by the incoming ones, through
      `uniqTags`. */
  function MergeTags(existing: seq<string>, incoming: seq<string>): (r: seq<string>)
    ensures NoDup(r)
    ensures forall x :: x in r <==> x in UniqTags(existing) || x in UniqTags(incoming)
  {
    NormTagsAppend(existing, incoming);
    UniqTags(existing + incoming)
  }

  lemma NormTagsAppend(a: seq<string>, b: seq<string>)
    ensures NormTags(a + b) == NormTags(a) + NormTags(b)
  {
  }

  /** The merge starts with the existing tags, in their order. */
  lemma MergeKeepsExistingFirst(existing: seq<string>, incoming: seq<string>)
    ensures UniqTags(existing) <= MergeTags(existing, incoming)
  {
    NormTagsAppend(existing, incoming);
    NonEmptyAppend(NormTags(existing), NormTags(incoming));
    DedupePrefix(NonEmpty(NormTags(existing)), NonEmpty(NormTags(incoming)));
  }

  /** `s.split(/[|;]+/)` followed by dropping the empty pieces: a run of
      separators splits once, which after the empty pieces are dropped is
      the same as splitting at every separator. */
  predicate IsTagSep(c: char)
  {
    c == '|' || c == ';'
  }

  function SplitTagSeps(s: string): (r: seq<string>)
    ensures |r| >= 1
    ensures forall i, k :: 0 <= i < |r| && 0 <= k < |r[i]| ==> !IsTagSep(r[i][k])
  {
    if s == [] then [""]
    else
      var rest := SplitTagSeps(s[1..]);
      if IsTagSep(s[0]) then [""] + rest
      else
        var r := [[s[0]] + rest[0]] + rest[1..];
        assert forall i :: 1 <= i < |r| ==> r[i] == rest[i];
        r
  }

  /** `parseTagsField`: a cell of the CSV `tags` column such as
      `vip|fnb;hotlead`. */
  function ParseTagsField(raw: string): (r: seq<string>)
    ensures NoDup(r)
    ensures forall x :: x in r ==> IsTag(x)
  {
    var s := Trim(raw);
    if s == "" then [] else UniqTags(NonEmpty(TrimAll(SplitTagSeps(s))))
  }

  /** Tags written as a `|`-separated cell read back as the same tags. */
  lemma ParseTagsFieldRoundTrip(tags: seq<string>)
    requires NoDup(tags)
    requires forall i :: 0 <= i < |tags| ==> IsTag(tags[i]) && NoTagSep(tags[i])
    ensures ParseTagsField(Join(tags, '|')) == tags
  {
    var s := Join(tags, '|');
    JoinNoSpace(tags);
    TrimNoSpace(s);
    if tags != [] {
      JoinSplitTagSeps(tags);
      assert s != "" by {
        assert tags[0] != "";
        JoinStartsWithFirst(tags);
      }
      TrimAllKeeps(tags);
      NonEmptyKeeps(tags);
      UniqTagsOfTags(tags);
    }
  }

  lemma TrimAllKeeps(tags: seq<string>)
    requires forall i :: 0 <= i < |tags| ==> NoSpace(tags[i])
    ensures TrimAll(tags) == tags
  {
    forall i | 0 <= i < |tags|
      ensures Trim(tags[i]) == tags[i]
    {
      TrimNoSpace(tags[i]);
    }
  }

  predicate NoTagSep(t: string)
  {
    forall k :: 0 <= k < |t| ==> !IsTagSep(t[k])
  }

  lemma {:induction false} JoinNoSpace(tags: seq<string>)
    requires forall i :: 0 <= i < |tags| ==> NoSpace(tags[i])
    ensures NoSpace(Join(tags, '|'))
  {
    if |tags| > 1 {
      JoinNoSpace(tags[1..]);
      var j := Join(tags[1..], '|');
      assert Join(tags, '|') == tags[0] + ['|'] + j;
      assert forall k :: 0 <= k < |tags[0]| ==> Join(tags, '|')[k] == tags[0][k];
      assert forall k :: |tags[0]| < k < |Join(tags, '|')| ==> Join(tags, '|')[k] == j[k - |tags[0]| - 1];
    }
  }

  lemma JoinStartsWithFirst(tags: seq<string>)
    requires |tags| >= 1
    ensures |Join(tags, '|')| >= |tags[0]|
  {
  }

  /** The pieces of a joined list are the list, when no piece holds a
      separator. */
  lemma {:induction false} JoinSplitTagSeps(tags: seq<string>)
    requires |tags| >= 1
    requires forall i :: 0 <= i < |tags| ==> NoTagSep(tags[i])
    ensures SplitTagSeps(Join(tags, '|')) == tags
    decreases |tags|
  {
    if |tags| == 1 {
      SplitTagSepsPlain(tags[0], []);
      assert tags[0] + [] == tags[0];
      assert tags[0] + "" == tags[0];
    } else {
      JoinSplitTagSeps(tags[1..]);
      var j := Join(tags[1..], '|');
      assert Join(tags, '|') == tags[0] + (['|'] + j);
      SplitTagSepsPlain(tags[0], ['|'] + j);
      assert SplitTagSeps(['|'] + j) == [""] + tags[1..] by {
        assert (['|'] + j)[1..] == j;
      }
      assert ([""] + tags[1..])[1..] == tags[1..];
      assert tags[0] + "" == tags[0];
      assert tags == [tags[0]] + tags[1..];
    }
  }

  /** A separator-free head is glued to the first piece of the rest. */
  lemma {:induction false} SplitTagSepsPlain(a: string, b: string)
    requires NoTagSep(a)
    ensures SplitTagSeps(a + b) == [a + SplitTagSeps(b)[0]] + SplitTagSeps(b)[1..]
    decreases |a|
  {
    if a != [] {
      assert (a + b)[1..] == a[1..] + b;
      SplitTagSepsPlain(a[1..], b);
      assert [a[0]] + (a[1..] + SplitTagSeps(b)[0]) == a + SplitTagSeps(b)[0];
    } else {
      var r := SplitTagSeps(b);
      assert a + b == b;
      assert a + r[0] == r[0];
      assert [r[0]] + r[1..] == r;
    }
  }

  /** `normalizePhone`: trimmed, with every whitespace run removed. */
  function NormalizePhone(phone: string): (r: string)
    ensures NoSpace(r)
  {
    RemoveSpaces(Trim(phone))
  }

  /** A phone without whitespace is already normalised. */
  lemma NormalizePhoneFixed(phone: string)
    requires NoSpace(phone)
    ensures NormalizePhone(phone) == phone
  {
    TrimNoSpace(phone);
    RemoveSpacesNoSpace(phone);
  }

  /** `normalizeTags` of the update handler: trimmed and lower-cased (inner
      whitespace is kept), blanks dropped, each value once. */
  function NormalizeTags(tags: seq<string>): (r: seq<string>)
    ensures NoDup(r)
    ensures forall x :: x in r <==> x != "" && exists i :: 0 <= i < |tags| && Lower(Trim(tags[i])) == x
    ensures forall x :: x in r ==> Trimmed(x) && NoUpper(x)
  {
    CleanedTrimmed(tags);
    DedupeSpec(NonEmpty(Cleaned(tags)));
    Dedupe(NonEmpty(Cleaned(tags)))
  }

  /** `tags.map((t) => String(t || "").trim().toLowerCase())` */
  function Cleaned(tags: seq<string>): (r: seq<string>)
    ensures |r| == |tags|
    ensures forall i :: 0 <= i < |tags| ==> r[i] == Lower(Trim(tags[i]))
  {
    seq(|tags|, i requires 0 <= i < |tags| => Lower(Trim(tags[i])))
  }

  lemma CleanedTrimmed(tags: seq<string>)
    ensures forall x :: x in Cleaned(tags) ==> Trimmed(x)
  {
    forall i | 0 <= i < |tags|
      ensures Trimmed(Cleaned(tags)[i])
    {
      LowerTrimmed(Trim(tags[i]));
    }
  }
}
