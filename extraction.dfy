/**
 * Getting the JSON text out of a model reply, shared by the symptom and plant routes:
 * the body of the first "```json" fence, else of the first untagged "```" fence, else
 * the whole reply.
 */
module Extraction {
  import opened Wrappers
  import opened Strings

  const JsonOpen := "```json\n"
  const PlainOpen := "```\n"
  const Close := "\n```"

  /**
   * The match of the lazy pattern `open([\s\S]*?)\n```` : the start of the leftmost
   * opening that has a closing after it, and the start of the first closing after that
   * opening.
   */
  function FenceMatch(text: string, open: string): (r: Option<(nat, nat)>)
    ensures r.Some? ==> OccursAt(text, open, r.value.0) && r.value.0 + |open| <= r.value.1
    ensures r.Some? ==> OccursAt(text, Close, r.value.1)
    ensures r.Some? ==> forall j :: 0 <= j < r.value.0 ==> !OccursAt(text, open, j)
    ensures r.Some? ==> forall j :: r.value.0 + |open| <= j < r.value.1 ==> !OccursAt(text, Close, j)
    ensures r.None? ==> forall i, j :: OccursAt(text, open, i) && i + |open| <= j ==> !OccursAt(text, Close, j)
  {
    match IndexOf(text, open, 0)
    case None => None
    case Some(i) =>
      match IndexOf(text, Close, i + |open|)
      case None => None
      case Some(j) => Some((i, j))
  }

  /** The captured group of a fence match. */
  function Captured(text: string, open: string): (r: Option<string>)
    ensures r.Some? <==> FenceMatch(text, open).Some?
    ensures r.Some? ==> var (i, j) := FenceMatch(text, open).value; r.value == text[i + |open|..j]
  {
    match FenceMatch(text, open)
    case None => None
    case Some((i, j)) => Some(text[i + |open|..j])
  }

  /** `jsonMatch ? jsonMatch[1] : responseText`. */
  function JsonText(reply: string): (r: string)
    ensures Captured(reply, JsonOpen).Some? ==> r == Captured(reply, JsonOpen).value
    ensures Captured(reply, JsonOpen).None? && Captured(reply, PlainOpen).Some? ==> r == Captured(reply, PlainOpen).value
    ensures Captured(reply, JsonOpen).None? && Captured(reply, PlainOpen).None? ==> r == reply
  {
    match Captured(reply, JsonOpen)
    case Some(t) => t
    case None =>
      match Captured(reply, PlainOpen)
      case Some(t) => t
      case None => reply
  }

  /** One mismatching character rules an occurrence out. */
  lemma NotOccursAt(text: string, key: string, i: int, k: int)
    requires 0 <= k < |key|
    requires 0 <= i && i + k < |text| ==> text[i + k] != key[k]
    ensures !OccursAt(text, key, i)
  {
    if 0 <= i && i + |key| <= |text| {
      assert text[i..i + |key|][k] == text[i + k];
    }
  }

  /** A reply with no backtick has no fence and is taken whole. */
  lemma BareReply(reply: string)
    requires '`' !in reply
    ensures JsonText(reply) == reply
  {
    forall i | 0 <= i ensures !OccursAt(reply, JsonOpen, i) && !OccursAt(reply, PlainOpen, i) {
      NotOccursAt(reply, JsonOpen, i, 0);
      NotOccursAt(reply, PlainOpen, i, 0);
    }
  }

  /** The fence match is `(i, j)` when no earlier opening and no earlier closing qualifies. */
  lemma FenceMatchAt(text: string, open: string, i: nat, j: nat)
    requires OccursAt(text, open, i) && i + |open| <= j && OccursAt(text, Close, j)
    requires forall k :: 0 <= k < i ==> !OccursAt(text, open, k)
    requires forall k :: i + |open| <= k < j ==> !OccursAt(text, Close, k)
    ensures FenceMatch(text, open) == Some((i, j))
    ensures Captured(text, open) == Some(text[i + |open|..j])
  {
  }

  /** No key starting with a backtick occurs in a backtick-free prefix. */
  lemma NoKeyBefore(text: string, key: string, n: int)
    requires |key| > 0 && key[0] == '`'
    requires forall m :: 0 <= m < n && m < |text| ==> text[m] != '`'
    ensures forall k :: 0 <= k < n ==> !OccursAt(text, key, k)
  {
    forall k | 0 <= k < n ensures !OccursAt(text, key, k) {
      NotOccursAt(text, key, k, 0);
    }
  }

  /** No closing starts between `lo` and a closing at `c` when no backtick lies in between. */
  lemma NoCloseBetween(text: string, lo: int, c: int)
    requires 0 <= lo <= c && OccursAt(text, Close, c)
    requires forall m :: lo < m < c ==> text[m] != '`'
    ensures forall k :: lo <= k < c ==> !OccursAt(text, Close, k)
  {
    assert text[c] == text[c..c + |Close|][0];
    forall k | lo <= k < c ensures !OccursAt(text, Close, k) {
      NotOccursAt(text, Close, k, 1);
    }
  }

  /**
   * A payload without backticks inside a "```json" fence comes out exactly, whatever
   * follows the fence and whatever backtick-free text precedes it.
   */
  lemma JsonFenceRoundTrip(pre: string, payload: string, post: string)
    requires '`' !in pre && '`' !in payload
    ensures JsonText(pre + JsonOpen + payload + Close + post) == payload
  {
    var text := pre + JsonOpen + payload + Close + post;
    var s := |pre|;
    var c := s + |JsonOpen| + |payload|;
    assert OccursAt(text, JsonOpen, s) by {
      assert text[s..s + |JsonOpen|] == JsonOpen;
    }
    assert OccursAt(text, Close, c) by {
      assert text[c..c + |Close|] == Close;
    }
    assert forall m :: 0 <= m < s && m < |text| ==> text[m] != '`' by {
      forall m | 0 <= m < s ensures text[m] != '`' {
        assert text[m] == pre[m];
      }
    }
    NoKeyBefore(text, JsonOpen, s);
    assert forall m :: s + |JsonOpen| < m < c ==> text[m] != '`' by {
      forall m | s + |JsonOpen| < m < c ensures text[m] != '`' {
        assert text[m] == payload[m - s - |JsonOpen|];
      }
    }
    NoCloseBetween(text, s + |JsonOpen|, c);
    FenceMatchAt(text, JsonOpen, s, c);
    assert text[s + |JsonOpen|..c] == payload;
  }

  /** The only backticks of `pre + PlainOpen + payload + Close + post` are the fence markers'. */
  lemma PlainFenceTicks(pre: string, payload: string, post: string, m: int)
    requires '`' !in pre && '`' !in payload && '`' !in post
    requires 0 <= m < |pre + PlainOpen + payload + Close + post|
    requires var c := |pre| + |PlainOpen| + |payload|;
      !(|pre| <= m <= |pre| + 2 || c + 1 <= m <= c + 3)
    ensures (pre + PlainOpen + payload + Close + post)[m] != '`'
  {
    var text := pre + PlainOpen + payload + Close + post;
    var c := |pre| + |PlainOpen| + |payload|;
    if m < |pre| {
      assert text[m] == pre[m];
    } else if m == |pre| + 3 {
      assert text[m] == PlainOpen[3];
    } else if m < c {
      assert text[m] == payload[m - |pre| - 4];
    } else if m == c {
      assert text[m] == Close[0];
    } else {
      assert text[m] == post[m - c - 4];
    }
  }

  /**
   * A backtick-free payload inside an untagged fence comes out exactly, provided the
   * text around the fence has no backticks either (so no "```json" fence can match).
   */
  lemma PlainFenceRoundTrip(pre: string, payload: string, post: string)
    requires '`' !in pre && '`' !in payload && '`' !in post
    ensures JsonText(pre + PlainOpen + payload + Close + post) == payload
  {
    var text := pre + PlainOpen + payload + Close + post;
    var s := |pre|;
    var c := s + |PlainOpen| + |payload|;
    assert text[s + 3] == PlainOpen[3];
    forall i, j | 0 <= i && i + |JsonOpen| <= j
      ensures !OccursAt(text, JsonOpen, i) || !OccursAt(text, Close, j)
    {
      if i < s || s + 3 <= i <= c {
        if i < |text| {
          PlainFenceTicks(pre, payload, post, i);
        }
        NotOccursAt(text, JsonOpen, i, 0);
      } else if i == s {
        NotOccursAt(text, JsonOpen, i, 3);
      } else if i == s + 1 {
        NotOccursAt(text, JsonOpen, i, 2);
      } else if i == s + 2 {
        NotOccursAt(text, JsonOpen, i, 1);
      } else {
        if j + 1 < |text| {
          PlainFenceTicks(pre, payload, post, j + 1);
        }
        NotOccursAt(text, Close, j, 1);
      }
    }
    assert FenceMatch(text, JsonOpen).None?;
    assert OccursAt(text, PlainOpen, s) by {
      assert text[s..s + |PlainOpen|] == PlainOpen;
    }
    assert OccursAt(text, Close, c) by {
      assert text[c..c + |Close|] == Close;
    }
    forall j | 0 <= j < s ensures !OccursAt(text, PlainOpen, j) {
      PlainFenceTicks(pre, payload, post, j);
      NotOccursAt(text, PlainOpen, j, 0);
    }
    forall j | s + |PlainOpen| <= j < c ensures !OccursAt(text, Close, j) {
      PlainFenceTicks(pre, payload, post, j + 1);
      NotOccursAt(text, Close, j, 1);
    }
    FenceMatchAt(text, PlainOpen, s, c);
    assert text[s + |PlainOpen|..c] == payload;
  }

  /** In `"```" + tag + "\n" + payload + Close`, backticks sit only at both ends. */
  lemma TaggedFenceTicks(tag: string, payload: string, m: int)
    requires '`' !in tag && '`' !in payload
    requires 3 <= m <= 3 + |tag| + 1 + |payload|
    ensures ("```" + tag + "\n" + payload + Close)[m] != '`'
  {
    var text := "```" + tag + "\n" + payload + Close;
    var k := 3 + |tag| + 1 + |payload|;
    if m < 3 + |tag| {
      assert text[m] == tag[m - 3];
    } else if m == 3 + |tag| {
      assert text[m] == '\n';
    } else if m < k {
      assert text[m] == payload[m - 4 - |tag|];
    } else {
      assert text[m] == Close[0];
    }
  }

  /**
   * A fence tagged with anything but "json" (say "```javascript") is not unwrapped:
   * the whole reply, fence markers included, is what gets parsed.
   */
  lemma OtherTagKeepsFence(tag: string, payload: string)
    requires tag != "" && tag != "json" && '`' !in tag && '\n' !in tag && '`' !in payload
    ensures var text := "```" + tag + "\n" + payload + Close; JsonText(text) == text
  {
    var text := "```" + tag + "\n" + payload + Close;
    var k := 3 + |tag| + 1 + |payload|;
    assert |text| == k + 4;
    assert text[3] == tag[0];
    TaggedFenceTicks(tag, payload, 3);
    forall i | 0 <= i ensures !OccursAt(text, JsonOpen, i) && !OccursAt(text, PlainOpen, i) {
      if i == 0 {
        NotOccursAt(text, PlainOpen, i, 3);
        if |tag| < 4 {
          assert text[3 + |tag|] == '\n';
          NotOccursAt(text, JsonOpen, i, 3 + |tag|);
        } else if tag[0] != 'j' {
          NotOccursAt(text, JsonOpen, i, 3);
        } else if tag[1] != 's' {
          assert text[4] == tag[1];
          NotOccursAt(text, JsonOpen, i, 4);
        } else if tag[2] != 'o' {
          assert text[5] == tag[2];
          NotOccursAt(text, JsonOpen, i, 5);
        } else if tag[3] != 'n' {
          assert text[6] == tag[3];
          NotOccursAt(text, JsonOpen, i, 6);
        } else {
          assert tag[..4] == "json";
          assert text[7] == tag[4];
          NotOccursAt(text, JsonOpen, i, 7);
        }
      } else if i == 1 {
        NotOccursAt(text, JsonOpen, i, 2);
        NotOccursAt(text, PlainOpen, i, 2);
      } else if i == 2 {
        NotOccursAt(text, JsonOpen, i, 1);
        NotOccursAt(text, PlainOpen, i, 1);
      } else if i <= k {
        TaggedFenceTicks(tag, payload, i);
        NotOccursAt(text, JsonOpen, i, 0);
        NotOccursAt(text, PlainOpen, i, 0);
      } else {
        NotOccursAt(text, JsonOpen, i, 3);
        NotOccursAt(text, PlainOpen, i, 3);
      }
    }
  }
}
