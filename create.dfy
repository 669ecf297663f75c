/** The publish form: the gate a new post must pass before the author is rewarded. The body
    comes from a rich-text editor as HTML; its tags are stripped and the rest trimmed, the
    three required fields are checked first, then the plain text must be at least 150
    UTF-16 code units long. A published post earns 20 XP and 3 coins and clears the form. */
module Create {
  import opened Prelude
  import opened Text
  import opened Effects

  /** What is left of `s` once the tag a `<` has just opened is consumed: everything up to
      and including the next `>`, or everything when no `>` follows. */
  function AfterTag(s: string): (r: string)
    ensures |r| <= |s| && r == s[|s| - |r|..]
  {
    if s == [] then []
    else if s[0] == '>' then s[1..]
    else AfterTag(s[1..])
  }

  /** `s.replace(/<[^>]*>?/gm, '')`: each match starts at a `<` and runs to the first `>`
      after it, or to the end of the text. */
  function StripTags(s: string): (r: string)
    ensures |r| <= |s|
    decreases |s|
  {
    if s == [] then []
    else if s[0] == '<' then StripTags(AfterTag(s[1..]))
    else [s[0]] + StripTags(s[1..])
  }

  /** Stripped text has no `<` left, and text without a `<` is left as it is. */
  lemma {:induction false} StripTagsRemovesTags(s: string)
    ensures '<' !in StripTags(s)
    ensures '<' !in s ==> StripTags(s) == s
    decreases |s|
  {
    if s == [] {
    } else if s[0] == '<' {
      var rest := AfterTag(s[1..]);
      assert StripTags(s) == StripTags(rest);
      StripTagsRemovesTags(rest);
    } else {
      var tail := StripTags(s[1..]);
      assert StripTags(s) == [s[0]] + tail;
      StripTagsRemovesTags(s[1..]);
      if '<' !in s {
        assert s == [s[0]] + s[1..];
        assert '<' !in s[1..];
      }
    }
  }

  /** Text outside the tags survives: a tag-free prefix is kept as it is, in front of what
      stripping makes of the rest. */
  lemma {:induction false} StripTagsKeepsText(a: string, b: string)
    requires '<' !in a
    ensures StripTags(a + b) == a + StripTags(b)
    decreases |a|
  {
    if a != [] {
      assert (a + b)[0] == a[0] && (a + b)[1..] == a[1..] + b;
      StripTagsKeepsText(a[1..], b);
      assert a == [a[0]] + a[1..];
    } else {
      assert a + b == b;
    }
  }

  /** A whole tag `<t>` is dropped, and stripping carries on after its `>`. */
  lemma StripTagsDropsTag(t: string, b: string)
    requires '>' !in t
    ensures StripTags("<" + t + ">" + b) == StripTags(b)
  {
    var s := "<" + t + ">" + b;
    assert s[0] == '<' && s[1..] == t + ">" + b;
    AfterTagClosed(t, b);
  }

  /** A `<` that is never closed takes the rest of the text with it: `<[^>]*` runs to the end. */
  lemma StripTagsUnclosed(a: string, t: string)
    requires '<' !in a && '>' !in t
    ensures StripTags(a + "<" + t) == a
  {
    var s := "<" + t;
    assert a + "<" + t == a + s;
    StripTagsKeepsText(a, s);
    assert s[0] == '<' && s[1..] == t;
    AfterTagUnclosed(t);
    assert StripTags(s) == StripTags([]) == [];
    assert a + [] == a;
  }

  /** Without a `>` the open tag consumes everything. */
  lemma {:induction false} AfterTagUnclosed(t: string)
    requires '>' !in t
    ensures AfterTag(t) == []
    decreases |t|
  {
    if t != [] {
      AfterTagUnclosed(t[1..]);
    }
  }

  /** The tag body `t` and its closing `>` are consumed, and nothing after them. */
  lemma {:induction false} AfterTagClosed(t: string, b: string)
    requires '>' !in t
    ensures AfterTag(t + ">" + b) == b
    decreases |t|
  {
    var s := t + ">" + b;
    if t == [] {
      assert s == ">" + b && s[1..] == b;
    } else {
      assert s[0] == t[0] && s[1..] == t[1..] + ">" + b;
      AfterTagClosed(t[1..], b);
    }
  }

  /** The stripped, trimmed body whose length is checked. */
  function PlainText(body: string): string {
    Trim(StripTags(body))
  }

  /** The checked text has no markup left in it. */
  lemma PlainTextHasNoTags(body: string)
    ensures '<' !in PlainText(body)
  {
    StripTagsRemovesTags(body);
    if '<' in PlainText(body) {
      TrimKeepsChars(StripTags(body), '<');
    }
  }

  /** The shortest plain text that may be published. */
  const MinPlainText: nat := 150

  datatype PublishOutcome = MissingFields | TooShort | Published

  /** The two checks of `handlePublish`, the required fields first. */
  function CheckPublish(title: string, body: string, category: string): (o: PublishOutcome)
  {
    if title == "" || body == "" || category == "" then MissingFields
    else if Utf16Length(PlainText(body)) < MinPlainText then TooShort
    else Published
  }

  /** The gate in terms of characters: publishing needs the three fields and at least 75
      characters of plain text (each character is one or two UTF-16 code units), and 150
      characters are always enough. */
  lemma PublishGate(title: string, body: string, category: string)
    ensures CheckPublish(title, body, category) == Published ==>
      title != "" && body != "" && category != "" && |PlainText(body)| >= MinPlainText / 2
    ensures title != "" && body != "" && category != "" && |PlainText(body)| >= MinPlainText ==>
      CheckPublish(title, body, category) == Published
    ensures CheckPublish(title, body, category) == MissingFields <==>
      title == "" || body == "" || category == ""
  {
  }

  /** Stripping is idempotent: stripped text has no tags left. */
  lemma StripTagsIdempotent(s: string)
    ensures StripTags(StripTags(s)) == StripTags(s)
  {
    StripTagsRemovesTags(s);
    StripTagsRemovesTags(StripTags(s));
  }

  /** For text in the Basic Multilingual Plane the gate counts characters: with the fields
      filled in, 149 characters are rejected and 150 accepted. */
  lemma LengthGateBoundary(title: string, body: string, category: string)
    requires title != "" && body != "" && category != ""
    requires InBmp(PlainText(body))
    ensures |PlainText(body)| == 149 ==> CheckPublish(title, body, category) == TooShort
    ensures |PlainText(body)| == 150 ==> CheckPublish(title, body, category) == Published
  {
    Utf16LengthOfBmp(PlainText(body));
  }

  /** A body of nothing but markup and whitespace fills the required field and still fails
      the length check. */
  lemma MarkupOnlyBodyTooShort(title: string, body: string, category: string)
    requires title != "" && body != "" && category != ""
    requires IsBlank(StripTags(body))
    ensures CheckPublish(title, body, category) == TooShort
  {
    TrimEmptyIffBlank(StripTags(body));
  }

  /** An empty paragraph from the editor, for instance. */
  lemma EmptyParagraphIsTooShort()
    ensures CheckPublish("Title", "<p></p>", "Money") == TooShort
  {
    StripEmptyParagraph();
    MarkupOnlyBodyTooShort("Title", "<p></p>", "Money");
  }

  lemma StripEmptyParagraph()
    ensures StripTags("<p></p>") == []
  {
    AfterTagLiteral("p></p>", 1);
    AfterTagLiteral("/p>", 2);
    StripTagsAtTag("</p>");
    StripTagsAtTag("<p></p>");
  }

  /** A tag opened at the head of `s` is dropped whole. */
  lemma StripTagsAtTag(s: string)
    requires s != [] && s[0] == '<'
    ensures StripTags(s) == StripTags(AfterTag(s[1..]))
  {
  }

  /** `AfterTag` of a string whose first `>` is at index `k`. */
  lemma {:induction false} AfterTagLiteral(s: string, k: nat)
    requires k < |s| && s[k] == '>' && forall i :: 0 <= i < k ==> s[i] != '>'
    ensures AfterTag(s) == s[k + 1..]
  {
    if k > 0 {
      AfterTagLiteral(s[1..], k - 1);
    }
  }

  /** What a published post asks for: `addXP(20, …)` and `earnCoins(3, 'post', …)`. */
  const PublishRewards: seq<Call> :=
    [AddXP(20, "Published an article"), EarnCoins(3, "post", "Published an article", None)]

  class CreateForm {
    var title: string
    var body: string
    var category: string
    var imageUrl: string

    constructor ()
      ensures title == "" && body == "" && category == "" && imageUrl == ""
    {
      title, body, category, imageUrl := "", "", "", "";
    }

    /** The outcome `handlePublish` would reach on the form as it is. */
    function Outcome(): PublishOutcome
      reads this
    {
      CheckPublish(title, body, category)
    }

    /** `handlePublish()`: on success 20 XP and 3 coins are asked for and the form is cleared;
        on either rejection nothing is asked for and the form is kept. */
    method HandlePublish() returns (outcome: PublishOutcome, calls: seq<Call>)
      modifies this
      ensures outcome == old(Outcome())
      ensures calls == if outcome == Published then PublishRewards else []
      ensures outcome == Published ==> title == "" && body == "" && category == "" && imageUrl == ""
      ensures outcome != Published ==> unchanged(this)
    {
      outcome := Outcome();
      calls := [];
      if outcome == Published {
        calls := PublishRewards;
        title, body, category, imageUrl := "", "", "", "";
      }
    }
  }
}
