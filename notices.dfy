/**
 * Notice rendering: the configured success and failure messages are shown after
 * substituting `{track_id}` and then `{order_id}` with PHP's `str_replace`.
 * `wpautop` and `wptexturize` are taken as the identity.
 */
module Notices {

  const TrackIdPlaceholder := "{track_id}"
  const OrderIdPlaceholder := "{order_id}"

  /** `p` occurs in `s` starting at index `i`. */
  predicate OccursAt(s: string, p: string, i: int) {
    0 <= i && i + |p| <= |s| && s[i..i + |p|] == p
  }

  predicate Occurs(s: string, p: string) {
    exists i :: 0 <= i <= |s| && OccursAt(s, p, i)
  }

  /** No character occurs in both strings. */
  predicate Disjoint(a: string, b: string) {
    forall c :: c in a ==> c !in b
  }

  /**
   * `str_replace(p, r, s)`: scans `s` from the left and replaces each non-overlapping
   * occurrence of `p` by `r`; the inserted text is not scanned again. An empty search
   * string leaves `s` as it is.
   */
  function ReplaceAll(s: string, p: string, r: string): string
    decreases |s|
  {
    if |p| == 0 || |s| < |p| then s
    else if s[..|p|] == p then r + ReplaceAll(s[|p|..], p, r)
    else [s[0]] + ReplaceAll(s[1..], p, r)
  }

  /** A text without the pattern is left unchanged. */
  lemma {:induction false} ReplaceAllAbsent(s: string, p: string, r: string)
    ensures !Occurs(s, p) ==> ReplaceAll(s, p, r) == s
    decreases |s|
  {
    if |p| == 0 {
    } else if |s| < |p| {
    } else if s[..|p|] == p {
      assert OccursAt(s, p, 0);
    } else {
      if Occurs(s[1..], p) {
        var i :| 0 <= i <= |s[1..]| && OccursAt(s[1..], p, i);
        assert s[i + 1..i + 1 + |p|] == s[1..][i..i + |p|];
        assert OccursAt(s, p, i + 1);
      }
      ReplaceAllAbsent(s[1..], p, r);
    }
  }

  /** A text that is exactly the pattern becomes exactly the replacement. */
  lemma ReplaceAllWhole(p: string, r: string)
    requires |p| > 0
    ensures ReplaceAll(p, p, r) == r
  {
    assert p[..|p|] == p;
    assert p[|p|..] == [];
    assert ReplaceAll([], p, r) == [];
  }

  /**
   * Until the first character of the replacement shows up, the output agrees with the input.
   */
  lemma {:induction false} PrefixKept(t: string, p: string, r: string, k: nat)
    requires |p| > 0 && |r| > 0
    requires k <= |ReplaceAll(t, p, r)|
    ensures (forall j :: 0 <= j < k ==> ReplaceAll(t, p, r)[j] != r[0]) ==>
              k <= |t| && ReplaceAll(t, p, r)[..k] == t[..k]
    decreases |t|
  {
    var out := ReplaceAll(t, p, r);
    if |t| < |p| {
    } else if t[..|p|] == p {
      if k > 0 {
        assert out[0] == r[0];
      }
    } else if k > 0 {
      var rest := ReplaceAll(t[1..], p, r);
      assert out == [t[0]] + rest;
      PrefixKept(t[1..], p, r, k - 1);
      if forall j :: 0 <= j < k ==> out[j] != r[0] {
        forall j | 0 <= j < k - 1 ensures rest[j] != r[0] {
          assert rest[j] == out[j + 1];
        }
        assert out[..k] == [t[0]] + rest[..k - 1];
        assert t[..k] == [t[0]] + t[1..][..k - 1];
      }
    }
  }

  /**
   * In the output of a step that keeps the first character of `s`, a window at the start
   * equals `q` only if the same window of `s` does, provided the replacement shares no
   * character with `q`. Shared step of the two lemmas below.
   */
  lemma KeptHeadWindow(s: string, p: string, r: string, q: string)
    requires |p| > 0 && |r| > 0 && |q| > 0 && Disjoint(r, q)
    requires |s| >= |p| && s[..|p|] != p
    requires |q| <= |ReplaceAll(s, p, r)|
    ensures ReplaceAll(s, p, r)[..|q|] == q ==> |q| <= |s| && s[..|q|] == q
  {
    var out := ReplaceAll(s, p, r);
    var rest := ReplaceAll(s[1..], p, r);
    assert out == [s[0]] + rest;
    assert r[0] in r;
    assert r[0] !in q;
    if exists j :: 0 <= j < |q| - 1 && rest[j] == r[0] {
      var j :| 0 <= j < |q| - 1 && rest[j] == r[0];
      assert out[j + 1] == r[0];
      assert q[j + 1] in q;
      assert out[..|q|][j + 1] != q[j + 1];
    } else {
      PrefixKept(s[1..], p, r, |q| - 1);
      assert out[..|q|] == [s[0]] + rest[..|q| - 1];
      assert s[..|q|] == [s[0]] + s[1..][..|q| - 1];
    }
  }

  /** A window of `a + rest` that starts past `a` is a window of `rest`. */
  lemma ShiftedWindow(a: string, rest: string, q: string, i: int)
    requires |a| <= i
    ensures OccursAt(a + rest, q, i) ==> OccursAt(rest, q, i - |a|)
  {
    if OccursAt(a + rest, q, i) {
      assert (a + rest)[i..i + |q|] == rest[i - |a|..i - |a| + |q|];
    }
  }

  /** A window that starts inside the replacement does not spell a pattern disjoint from it. */
  lemma ReplacementWindow(r: string, rest: string, q: string, i: int)
    requires |q| > 0 && Disjoint(r, q) && 0 <= i < |r|
    ensures !OccursAt(r + rest, q, i)
  {
    var out := r + rest;
    if i + |q| <= |out| {
      assert out[i] == r[i];
      assert r[i] in r;
      assert out[i..i + |q|][0] != q[0];
    }
  }

  /**
   * Every occurrence of the pattern is replaced: when the replacement is non-empty and
   * shares no character with the pattern, the pattern does not occur in the output.
   */
  lemma {:induction false} ReplaceAllRemoves(s: string, p: string, r: string)
    requires |p| > 0 && |r| > 0 && Disjoint(r, p)
    ensures !Occurs(ReplaceAll(s, p, r), p)
    decreases |s|
  {
    var out := ReplaceAll(s, p, r);
    if |s| < |p| {
    } else if s[..|p|] == p {
      var rest := ReplaceAll(s[|p|..], p, r);
      assert out == r + rest;
      ReplaceAllRemoves(s[|p|..], p, r);
      forall i | 0 <= i <= |out| ensures !OccursAt(out, p, i) {
        if i < |r| {
          ReplacementWindow(r, rest, p, i);
        } else {
          ShiftedWindow(r, rest, p, i);
        }
      }
    } else {
      var rest := ReplaceAll(s[1..], p, r);
      assert out == [s[0]] + rest;
      ReplaceAllRemoves(s[1..], p, r);
      forall i | 0 <= i <= |out| ensures !OccursAt(out, p, i) {
        if i == 0 {
          if |p| <= |out| {
            KeptHeadWindow(s, p, r, p);
          }
        } else {
          ShiftedWindow([s[0]], rest, p, i);
        }
      }
    }
  }

  /**
   * Replacing one pattern does not create another: if `q` is absent from the input and
   * the replacement is non-empty and shares no character with `q`, `q` stays absent.
   */
  lemma {:induction false} ReplaceAllKeepsAbsent(s: string, p: string, r: string, q: string)
    requires |p| > 0 && |r| > 0 && Disjoint(r, q)
    ensures !Occurs(s, q) ==> !Occurs(ReplaceAll(s, p, r), q)
    decreases |s|
  {
    var out := ReplaceAll(s, p, r);
    if |q| == 0 {
      assert OccursAt(s, q, 0);
    } else if |s| < |p| {
    } else if s[..|p|] == p {
      var rest := ReplaceAll(s[|p|..], p, r);
      assert out == r + rest;
      ReplaceAllKeepsAbsent(s[|p|..], p, r, q);
      SuffixOccurrence(s, |p|, q);
      forall i | 0 <= i <= |out| && !Occurs(s, q) ensures !OccursAt(out, q, i) {
        if i < |r| {
          ReplacementWindow(r, rest, q, i);
        } else {
          ShiftedWindow(r, rest, q, i);
        }
      }
    } else {
      var rest := ReplaceAll(s[1..], p, r);
      assert out == [s[0]] + rest;
      ReplaceAllKeepsAbsent(s[1..], p, r, q);
      SuffixOccurrence(s, 1, q);
      forall i | 0 <= i <= |out| && !Occurs(s, q) ensures !OccursAt(out, q, i) {
        if i == 0 {
          if |q| <= |out| {
            KeptHeadWindow(s, p, r, q);
            assert !OccursAt(s, q, 0);
          }
        } else {
          ShiftedWindow([s[0]], rest, q, i);
        }
      }
    }
  }

  /** An occurrence in a suffix is an occurrence in the whole text. */
  lemma SuffixOccurrence(s: string, k: nat, q: string)
    requires k <= |s|
    ensures Occurs(s[k..], q) ==> Occurs(s, q)
  {
    if Occurs(s[k..], q) {
      var i :| 0 <= i <= |s[k..]| && OccursAt(s[k..], q, i);
      assert s[k..][i..i + |q|] == s[i + k..i + k + |q|];
      assert OccursAt(s, q, i + k);
    }
  }

  /**
   * The first occurrence of the pattern is what gets replaced: text before it that does
   * not already spell the pattern (even with the start of the pattern) is kept, the
   * occurrence becomes the replacement, and the scan goes on after it.
   */
  lemma {:induction false} ReplaceAllFirst(a: string, p: string, r: string, b: string)
    requires |p| > 0 && !Occurs(a + p[..|p| - 1], p)
    ensures ReplaceAll(a + p + b, p, r) == a + r + ReplaceAll(b, p, r)
    decreases |a|
  {
    var s := a + p + b;
    if |a| == 0 {
      assert s == p + b;
      assert s[..|p|] == p;
      assert s[|p|..] == b;
    } else {
      var w := a + p[..|p| - 1];
      assert w[..|p|] == s[..|p|];
      assert !OccursAt(w, p, 0);
      assert s[..|p|] != p;
      assert s[1..] == a[1..] + p + b;
      var w' := a[1..] + p[..|p| - 1];
      forall i | 0 <= i <= |w'| ensures !OccursAt(w', p, i) {
        if i + |p| <= |w'| {
          assert w'[i..i + |p|] == w[i + 1..i + 1 + |p|];
          assert !OccursAt(w, p, i + 1);
        }
      }
      ReplaceAllFirst(a[1..], p, r, b);
      assert a + r + ReplaceAll(b, p, r) == [a[0]] + (a[1..] + r + ReplaceAll(b, p, r));
    }
  }

  /** A text whose head lacks the pattern's first character spells the pattern only in its tail. */
  lemma HeadFreeConcat(a: string, b: string, p: string)
    requires |p| > 0
    ensures p[0] !in a && !Occurs(b, p) ==> !Occurs(a + b, p)
  {
    if p[0] !in a && !Occurs(b, p) {
      forall i | 0 <= i <= |a + b| ensures !OccursAt(a + b, p, i) {
        if i < |a| {
          assert (a + b)[i] == a[i];
          assert a[i] in a;
          if i + |p| <= |a + b| {
            assert (a + b)[i..i + |p|][0] != p[0];
          }
        } else {
          ShiftedWindow(a, b, p, i);
        }
      }
    }
  }

  /** `{track_id}` is substituted first, then `{order_id}`. */
  function RenderNotice(template: string, trackId: string, orderId: string): string {
    ReplaceAll(ReplaceAll(template, TrackIdPlaceholder, trackId), OrderIdPlaceholder, orderId)
  }

  /**
   * With non-empty ids, a track id that shares no character with `{track_id}` and an order
   * id that shares none with either placeholder, no placeholder is left in the notice.
   */
  lemma RenderNoticeFillsPlaceholders(template: string, trackId: string, orderId: string)
    requires trackId != "" && orderId != ""
    requires Disjoint(trackId, TrackIdPlaceholder)
    requires Disjoint(orderId, TrackIdPlaceholder) && Disjoint(orderId, OrderIdPlaceholder)
    ensures !Occurs(RenderNotice(template, trackId, orderId), TrackIdPlaceholder)
    ensures !Occurs(RenderNotice(template, trackId, orderId), OrderIdPlaceholder)
  {
    var once := ReplaceAll(template, TrackIdPlaceholder, trackId);
    ReplaceAllRemoves(template, TrackIdPlaceholder, trackId);
    ReplaceAllKeepsAbsent(once, OrderIdPlaceholder, orderId, TrackIdPlaceholder);
    ReplaceAllRemoves(once, OrderIdPlaceholder, orderId);
  }

  /** A template without placeholders is shown as it is. */
  lemma RenderNoticePlain(template: string, trackId: string, orderId: string)
    requires !Occurs(template, TrackIdPlaceholder) && !Occurs(template, OrderIdPlaceholder)
    ensures RenderNotice(template, trackId, orderId) == template
  {
    ReplaceAllAbsent(template, TrackIdPlaceholder, trackId);
    ReplaceAllAbsent(template, OrderIdPlaceholder, orderId);
  }

  /**
   * The order of the two substitutions shows: a `{order_id}` brought in by the track id
   * is itself replaced by the order id.
   */
  lemma RenderNoticeOrder(orderId: string)
    ensures RenderNotice(TrackIdPlaceholder, OrderIdPlaceholder, orderId) == orderId
  {
    ReplaceAllWhole(TrackIdPlaceholder, OrderIdPlaceholder);
    ReplaceAllWhole(OrderIdPlaceholder, orderId);
  }

  /** The text before the placeholder in the default success message. */
  const DefaultSuccessLead := "Your payment " + "has been " + "successfully " + "completed. " + "Track id: "
  /** The default success message of the gateway settings. */
  const DefaultSuccessMessage := DefaultSuccessLead + TrackIdPlaceholder

  /**
   * The default success message shows the track id in place of `{track_id}`, as long as
   * the track id does not itself spell `{order_id}`.
   */
  lemma RenderDefaultSuccess(trackId: string, orderId: string)
    requires !Occurs(trackId, OrderIdPlaceholder)
    ensures RenderNotice(DefaultSuccessMessage, trackId, orderId) == DefaultSuccessLead + trackId
  {
    var lead, p, q := DefaultSuccessLead, TrackIdPlaceholder, OrderIdPlaceholder;
    assert '{' !in lead;
    assert p[0] == '{' && q[0] == '{';
    assert !Occurs(p[..|p| - 1], p);
    HeadFreeConcat(lead, p[..|p| - 1], p);
    ReplaceAllFirst(lead, p, trackId, "");
    assert DefaultSuccessMessage == lead + p + "";
    assert ReplaceAll("", p, trackId) == "";
    var once := ReplaceAll(DefaultSuccessMessage, p, trackId);
    assert once == lead + trackId;
    HeadFreeConcat(lead, trackId, q);
    ReplaceAllAbsent(once, q, orderId);
  }
}
