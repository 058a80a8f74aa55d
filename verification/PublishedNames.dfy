/**
 * Names the published alphas gave to retired spaces
 * (`store_recovery_published.rs`): NAME-PID-MILLIS in trash.
 */
module PublishedNames {
  import opened Base

  predicate IsDigit(c: char) {
    '0' <= c <= '9'
  }

  predicate IsAlphanumeric(c: char) {
    IsDigit(c) || 'a' <= c <= 'z' || 'A' <= c <= 'Z'
  }

  predicate Digits(s: string) {
    s != "" && forall i :: 0 <= i < |s| ==> IsDigit(s[i])
  }

  /** `SpaceName::parse`. */
  predicate IsSpaceName(s: string) {
    && 1 <= |s| <= 32 && IsAlphanumeric(s[0])
    && forall i :: 0 <= i < |s| ==> IsAlphanumeric(s[i]) || s[i] == '-' || s[i] == '_'
  }

  /** One step of `rsplitn`: what lies before and after the last hyphen, if there is one. */
  function SplitLast(s: string): Option<(string, string)>
    decreases |s|
  {
    if s == "" then None
    else
      var front, last := s[..|s| - 1], s[|s| - 1];
      if last == '-' then Some((front, ""))
      else
        var split := SplitLast(front);
        if split.None? then None else Some((split.value.0, split.value.1 + [last]))
  }

  /** `published_alpha_retired_name`. */
  function PublishedName(name: string): Option<string> {
    var last := SplitLast(name);
    if last.None? then None
    else
      var middle := SplitLast(last.value.0);
      if middle.None? then None
      else if !Digits(last.value.1) || !Digits(middle.value.1) then None
      else if IsSpaceName(middle.value.0) then Some(middle.value.0) else None
  }

  predicate HyphenFree(s: string) {
    forall i :: 0 <= i < |s| ==> s[i] != '-'
  }

  lemma {:induction false} SplitLastReads(before: string, after: string)
    requires HyphenFree(after)
    ensures SplitLast(before + "-" + after) == Some((before, after))
    decreases |after|
  {
    var s := before + "-" + after;
    if after == "" {
      assert s[..|s| - 1] == before;
    } else {
      var front, last := after[..|after| - 1], after[|after| - 1];
      SplitLastReads(before, front);
      assert s[..|s| - 1] == before + "-" + front && s[|s| - 1] == last;
      assert front + [last] == after;
    }
  }

  lemma {:induction false} SplitLastSplits(s: string)
    requires SplitLast(s).Some?
    ensures s == SplitLast(s).value.0 + "-" + SplitLast(s).value.1 && HyphenFree(SplitLast(s).value.1)
    decreases |s|
  {
    var front, last := s[..|s| - 1], s[|s| - 1];
    assert s == front + [last];
    if last != '-' { SplitLastSplits(front); }
  }

  /** The name of an alpha's retired space, put together. */
  ghost predicate Published(name: string, space: string, pid: string, millis: string) {
    IsSpaceName(space) && Digits(pid) && Digits(millis) && name == space + "-" + pid + "-" + millis
  }

  /** The parser accepts exactly the names the alphas wrote, and returns the space they stood for. */
  lemma ParsesExactlyPublishedNames(name: string, space: string)
    ensures PublishedName(name) == Some(space) <==> exists pid, millis :: Published(name, space, pid, millis)
  {
    if PublishedName(name) == Some(space) {
      var (rest, millis) := SplitLast(name).value;
      var (s, pid) := SplitLast(rest).value;
      SplitLastSplits(name);
      SplitLastSplits(rest);
      assert Published(name, space, pid, millis);
    }
    if pid, millis :| Published(name, space, pid, millis) {
      SplitLastReads(space + "-" + pid, millis);
      SplitLastReads(space, pid);
    }
  }

  /** Any short name of letters and digits, with its two numbers, is such a name; a long one is not. */
  lemma ShortNamesArePublished(space: string, pid: string, millis: string)
    requires Digits(pid) && Digits(millis)
    requires space != "" && forall i :: 0 <= i < |space| ==> '0' <= space[i] <= '9' || 'a' <= space[i] <= 'z' || 'A' <= space[i] <= 'Z'
    ensures PublishedName(space + "-" + pid + "-" + millis) == if |space| <= 32 then Some(space) else None
  {
    SplitLastReads(space + "-" + pid, millis);
    SplitLastReads(space, pid);
  }

  /** So it never claims a hidden name, such as those recovery itself uses. */
  lemma PublishedNamesAreVisible(name: string)
    requires PublishedName(name).Some?
    ensures name != "" && name[0] != '.'
  {
    ParsesExactlyPublishedNames(name, PublishedName(name).value);
    var pid, millis :| Published(name, PublishedName(name).value, pid, millis);
    assert name[0] == PublishedName(name).value[0];
  }
}
