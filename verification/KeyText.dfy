/** The idempotency key that a recharge makes of the requested text. */
module KeyText {
  import opened Model
  import opened PaymentSpec

  /** Blanks, tabs and other control characters around a text. */
  predicate Padding(s: string) { forall i :: 0 <= i < |s| ==> s[i] <= ' ' }

  predicate Bare(s: string) { s == "" || (s[0] > ' ' && s[|s| - 1] > ' ') }

  /** Every character is a space, one of tab to carriage return, or one of the four separators 28 to 31. */
  predicate Blank(s: string) {
    forall i :: 0 <= i < |s| ==> s[i] == ' ' || 9 <= s[i] as int <= 13 || 28 <= s[i] as int <= 31
  }

  /** s is the text without the padding on either side. */
  ghost predicate Unpadded(text: string, s: string) {
    Bare(s) && exists left, right :: Surrounds(text, left, s, right)
  }

  predicate Surrounds(text: string, left: string, s: string, right: string) {
    Padding(left) && Padding(right) && text == left + s + right
  }

  /** The key is the requested text without its padding, and a fresh identifier when none or a blank one is
      requested. */
  ghost predicate KeyIs(requested: Option<string>, uuid: string, key: string) {
    if requested == None || Blank(requested.value) then key == uuid else Unpadded(requested.value, key)
  }

  lemma TrimLeft(c: char, s: string)
    requires c <= ' '
    ensures Trim([c] + s) == Trim(s)
  {
    assert ([c] + s)[1..] == s;
  }

  lemma {:induction false} TrimRight(s: string, c: char)
    requires c <= ' '
    ensures Trim(s + [c]) == Trim(s)
    decreases |s|
  {
    if s == "" {
      assert s + [c] == [c] + "";
    } else if s[0] <= ' ' {
      assert (s + [c])[1..] == s[1..] + [c];
      TrimRight(s[1..], c);
    } else {
      assert (s + [c])[..|s|] == s;
    }
  }

  lemma {:induction false} TrimPadded(left: string, core: string, right: string)
    requires Padding(left) && Padding(right) && Bare(core)
    ensures Trim(left + core + right) == core
    decreases |left| + |right|
  {
    hide Trim;
    if left != "" {
      assert left + core + right == [left[0]] + (left[1..] + core + right);
      TrimLeft(left[0], left[1..] + core + right);
      TrimPadded(left[1..], core, right);
    } else if right != "" {
      var n := |right| - 1;
      assert left + core + right == (left + core + right[..n]) + [right[n]];
      TrimRight(left + core + right[..n], right[n]);
      TrimPadded(left, core, right[..n]);
    } else {
      assert left + core + right == core;
      TrimBare(core);
    }
  }

  lemma TrimBare(s: string)
    requires Bare(s)
    ensures Trim(s) == s
  {}

  lemma MorePadding(text: string, s: string, c: char)
    requires Unpadded(text, s) && c <= ' '
    ensures Unpadded([c] + text, s) && Unpadded(text + [c], s)
  {
    var left, right :| Surrounds(text, left, s, right);
    assert Surrounds([c] + text, [c] + left, s, right);
    assert Surrounds(text + [c], left, s, right + [c]);
  }

  /** Every text has its unpadded form. */
  lemma {:induction false} TrimUnpads(s: string)
    ensures Unpadded(s, Trim(s))
    decreases |s|
  {
    if Bare(s) {
      TrimBare(s);
      assert Surrounds(s, "", s, "");
    } else {
      hide Trim, Unpadded;
      var n := |s| - 1;
      if s[0] <= ' ' {
        TrimUnpads(s[1..]);
        TrimLeft(s[0], s[1..]);
        MorePadding(s[1..], Trim(s[1..]), s[0]);
        assert [s[0]] + s[1..] == s;
      } else {
        TrimUnpads(s[..n]);
        TrimRight(s[..n], s[n]);
        MorePadding(s[..n], Trim(s[..n]), s[n]);
        assert s[..n] + [s[n]] == s;
      }
    }
  }

  /** The recharge uses this key, and there is no other. */
  lemma KeyIsRight(requested: Option<string>, uuid: string, key: string)
    ensures KeyIs(requested, uuid, key) <==> RechargeKey(requested, uuid) == key
  {
    if requested.Some? {
      assert Blank(requested.value) <==> IsBlank(requested.value);
      hide Trim, Bare;
      TrimUnpads(requested.value);
      if Unpadded(requested.value, key) {
        var left, right :| Surrounds(requested.value, left, key, right);
        TrimPadded(left, key, right);
      }
    }
  }

  lemma PaddedKeys(key: string, left: string, right: string, uuid1: string, uuid2: string)
    requires Bare(key) && !Blank(key) && Padding(left) && Padding(right)
    ensures KeyIs(Some(key), uuid1, key) && KeyIs(Some(left + key + right), uuid2, key)
  {
    assert Surrounds(key, "", key, "") && Surrounds(left + key + right, left, key, right);
    var i :| 0 <= i < |key| && !(key[i] == ' ' || 9 <= key[i] as int <= 13 || 28 <= key[i] as int <= 31);
    assert (left + key + right)[|left| + i] == key[i];
  }
}
