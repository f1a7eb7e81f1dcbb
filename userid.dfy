/**
 * `re.match(USER_ID_REGEX, s)` with `USER_ID_REGEX = r"\<\@(.+?)\>"`: the match is
 * anchored at the start of `s`; `.` matches any character except a newline and
 * `.+?` is lazy, so group 1 is the shortest non-empty run after `<@` that is
 * followed by `>`.
 */
module UserIdPattern {
  import opened Wrappers
  import opened PyText

  /** The pattern matches `s` with group 1 spanning `s[2..k]`. */
  ghost predicate MatchEndsAt(s: string, k: int) {
    3 <= k < |s| && s[0] == '<' && s[1] == '@' && s[k] == '>'
    && forall j :: 2 <= j < k ==> s[j] != '\n'
  }

  /** The first `>` at or after `i`, provided no newline comes before it. */
  function ScanClose(s: string, i: nat): (r: Option<nat>)
    requires i <= |s|
    ensures r.Some? ==> i <= r.value < |s| && s[r.value] == '>'
    ensures r.Some? ==> forall j :: i <= j < r.value ==> s[j] != '>' && s[j] != '\n'
    ensures r.None? ==> forall k :: i <= k < |s| && s[k] == '>' ==> exists j :: i <= j < k && s[j] == '\n'
    decreases |s| - i
  {
    if i == |s| then None
    else if s[i] == '>' then Some(i)
    else if s[i] == '\n' then None
    else ScanClose(s, i + 1)
  }

  /** Where the lazy group ends, if the pattern matches at all. */
  function CaptureEnd(s: string): (r: Option<nat>)
    ensures r.Some? ==> MatchEndsAt(s, r.value)
    ensures r.Some? ==> forall k :: 3 <= k < r.value ==> !MatchEndsAt(s, k)
    ensures r.None? ==> forall k :: !MatchEndsAt(s, k)
  {
    if |s| < 3 || s[0] != '<' || s[1] != '@' || s[2] == '\n' then None
    else ScanClose(s, 3)
  }

  /** `m.group(1)` when `re.match` succeeds, `None` when it does not. */
  function UserId(s: string): (r: Option<string>)
    ensures r.Some? ==> |r.value| > 0 && StartsWithMention(s, r.value)
    ensures r.Some? && IsAscii(s) ==> IsAscii(r.value)
  {
    match CaptureEnd(s)
    case Some(k) => Some(s[2..k])
    case None => None
  }

  ghost predicate StartsWithMention(s: string, id: string) {
    |id| + 3 <= |s| && s[..|id| + 3] == "<@" + id + ">"
  }

  /**
   * A mention `<@id>` followed by anything yields `id`, as long as `id` holds no
   * newline and no `>` past its first character: text after the `>` is ignored.
   */
  lemma MentionYieldsId(id: string, rest: string)
    requires |id| > 0
    requires forall j :: 0 <= j < |id| ==> id[j] != '\n'
    requires forall j :: 1 <= j < |id| ==> id[j] != '>'
    ensures UserId("<@" + id + ">" + rest) == Some(id)
  {
    var s := "<@" + id + ">" + rest;
    var e := |id| + 2;
    assert forall j :: 2 <= j < e ==> s[j] == id[j - 2];
    assert MatchEndsAt(s, e);
    var k := CaptureEnd(s).value;
    assert k == e;
    assert s[2..k] == id;
  }

  /** A target with no `>` after its third character never matches. */
  lemma NoCloseNoMatch(s: string)
    requires forall j :: 3 <= j < |s| ==> s[j] != '>'
    ensures UserId(s) == None
  {
  }
}
