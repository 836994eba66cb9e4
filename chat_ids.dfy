/**
 * Chat identifiers: the suffix convention that tells group chats (`@g.us`)
 * from contact chats (`@c.us`), the normalisation the `/send` handler applies
 * to its destination, and the group test the inbound-message handler applies
 * to a sender.
 */
module ChatIds {

  const GroupSuffix: string := "@g.us"
  const ContactSuffix: string := "@c.us"

  /** JavaScript's `s.startsWith(p)`. */
  predicate StartsWith(s: string, p: string)
  {
    |p| <= |s| && s[..|p|] == p
  }

  /** JavaScript's `s.endsWith(p)`. */
  predicate EndsWith(s: string, p: string)
  {
    |p| <= |s| && s[|s| - |p|..] == p
  }

  /** JavaScript's `s.includes(p)`, as a search from the left. */
  predicate Contains(s: string, p: string)
    decreases |s|
  {
    StartsWith(s, p) || (s != [] && Contains(s[1..], p))
  }

  /** `p` occurs in `s` starting at index `i`: the positional reading of `includes`. */
  predicate OccursAt(s: string, p: string, i: int)
  {
    0 <= i && i + |p| <= |s| && s[i..i + |p|] == p
  }

  /** The search agrees with the positional definition, in both directions. */
  lemma {:induction false} ContainsIffOccurs(s: string, p: string)
    ensures Contains(s, p) <==> exists i :: OccursAt(s, p, i)
    decreases |s|
  {
    if Contains(s, p) {
      if StartsWith(s, p) {
        assert OccursAt(s, p, 0);
      } else {
        ContainsIffOccurs(s[1..], p);
        var i :| OccursAt(s[1..], p, i);
        assert s[1..][i..i + |p|] == s[i + 1..i + 1 + |p|];
        assert OccursAt(s, p, i + 1);
      }
    }
    if exists i :: OccursAt(s, p, i) {
      var i :| OccursAt(s, p, i);
      if i > 0 {
        assert s[1..][i - 1..i - 1 + |p|] == s[i..i + |p|];
        assert OccursAt(s[1..], p, i - 1);
        ContainsIffOccurs(s[1..], p);
      }
    }
  }

  /** Appending `p` to any string makes it contain `p`. */
  lemma {:induction false} ContainsAppended(s: string, p: string)
    ensures Contains(s + p, p)
    decreases |s|
  {
    if s == [] {
      assert s + p == p;
    } else {
      assert (s + p)[1..] == s[1..] + p;
      ContainsAppended(s[1..], p);
    }
  }

  /** A suffix is in particular contained. */
  lemma {:induction false} EndsWithContains(s: string, p: string)
    requires EndsWith(s, p)
    ensures Contains(s, p)
    decreases |s|
  {
    if |s| == |p| {
      assert s[..|p|] == s[|s| - |p|..];
    } else {
      assert s[1..][|s[1..]| - |p|..] == s[|s| - |p|..];
      EndsWithContains(s[1..], p);
    }
  }

  /** A string that lacks the first character of a non-empty `p` cannot contain `p`. */
  lemma {:induction false} LacksFirstCharNotContains(s: string, p: string)
    requires p != [] && p[0] !in s
    ensures !Contains(s, p)
    decreases |s|
  {
    if s != [] {
      assert s[0] in s;
      assert forall c :: c in s[1..] ==> c in s;
      LacksFirstCharNotContains(s[1..], p);
    }
  }

  /** The destination already names a group or a contact chat. */
  predicate HasChatSuffix(to: string)
  {
    Contains(to, GroupSuffix) || Contains(to, ContactSuffix)
  }

  /**
   * The `/send` handler's normalisation of its destination: a destination
   * that already includes `@g.us` or `@c.us` is kept, any other gets `@c.us`.
   */
  function NormalizeChatId(to: string): (chatId: string)
    ensures HasChatSuffix(to) ==> chatId == to
    ensures !HasChatSuffix(to) ==> chatId == to + ContactSuffix
    ensures HasChatSuffix(chatId)
  {
    if Contains(to, GroupSuffix) then to
    else if Contains(to, ContactSuffix) then to
    else
      ContainsAppended(to, ContactSuffix);
      to + ContactSuffix
  }

  /** Normalising a normalised identifier leaves it unchanged. */
  lemma NormalizeIdempotent(to: string)
    ensures NormalizeChatId(NormalizeChatId(to)) == NormalizeChatId(to)
  {
  }

  /** Normalisation never drops characters: the destination is a prefix of the chat id. */
  lemma NormalizeExtends(to: string)
    ensures StartsWith(NormalizeChatId(to), to)
    ensures |NormalizeChatId(to)| <= |to| + |ContactSuffix|
  {
  }

  /** A destination without any `@` gets the contact suffix. */
  lemma NormalizeWithoutAt(to: string)
    requires '@' !in to
    ensures NormalizeChatId(to) == to + ContactSuffix
  {
    LacksFirstCharNotContains(to, GroupSuffix);
    LacksFirstCharNotContains(to, ContactSuffix);
  }

  /** A bare phone number gets the contact suffix. */
  lemma NormalizeBareNumber(to: string)
    requires to == "5511999999999"
    ensures NormalizeChatId(to) == "5511999999999@c.us"
  {
    NormalizeWithoutAt(to);
  }

  /** The inbound handler's test: a sender is a group iff its id ends with `@g.us`. */
  predicate IsGroupMessage(from: string): (group: bool)
    ensures group <==> exists u :: from == u + GroupSuffix
  {
    if EndsWith(from, GroupSuffix) then
      assert from == from[..|from| - |GroupSuffix|] + GroupSuffix;
      true
    else
      false
  }

  /** Every group sender is a destination that normalisation keeps as it is. */
  lemma GroupIdKeptByNormalize(from: string)
    requires IsGroupMessage(from)
    ensures NormalizeChatId(from) == from
  {
    EndsWithContains(from, GroupSuffix);
  }

  /**
   * The two tests differ: an id that includes `@g.us` without ending in it is
   * kept by normalisation as a group destination but is not a group sender.
   */
  lemma IncludesIsNotEndsWith()
    ensures Contains("120363@g.us.x", GroupSuffix)
    ensures NormalizeChatId("120363@g.us.x") == "120363@g.us.x"
    ensures !IsGroupMessage("120363@g.us.x")
  {
    assert OccursAt("120363@g.us.x", GroupSuffix, 6);
    ContainsIffOccurs("120363@g.us.x", GroupSuffix);
  }
}
