/**
 * The record `StartUpdater::createTypeFlag` writes to `var/.type.json` for
 * the updater application: the job type, the page header title, and the
 * titles of the navigation menu items that belong to that job type.
 */
module TypeFlags {
  import opened PhpValues

  /** What each newline of a menu title is replaced with. */
  const LINE_BREAK := "<br />"

  /**
   * A navigation menu item as far as the flag is concerned: the value of its
   * `type` key (`Null` when it has none, which `isset` cannot tell apart)
   * and its title.
   */
  datatype MenuItem = MenuItem(kind: Value, title: string)

  datatype TypeFlag = TypeFlag(jobType: Value, headerTitle: Value, titles: seq<string>)

  /** `str_replace("\n", '<br />', s)`. */
  function ReplaceNewlines(s: string): string {
    if s == [] then []
    else (if s[0] == '\n' then LINE_BREAK else [s[0]]) + ReplaceNewlines(s[1..])
  }

  /** `isset($item['type']) && $item['type'] === $jobType`. */
  predicate Matches(item: MenuItem, jobType: Value) {
    item.kind != Null && item.kind == jobType
  }

  /** The (rewritten) titles contributed by `items`, in menu order. */
  function MatchingTitles(items: seq<MenuItem>, jobType: Value): seq<string>
    decreases |items|
  {
    if items == [] then []
    else
      var last := items[|items| - 1];
      MatchingTitles(items[..|items| - 1], jobType)
      + (if Matches(last, jobType) then [ReplaceNewlines(last.title)] else [])
  }

  function FlagFor(jobType: Value, headerTitle: Value, items: seq<MenuItem>): TypeFlag {
    TypeFlag(jobType, headerTitle, MatchingTitles(items, jobType))
  }

  // ---- str_replace ----

  lemma {:induction false} ReplaceNewlinesRemovesAll(s: string)
    ensures '\n' !in ReplaceNewlines(s)
  {
    if s != [] {
      ReplaceNewlinesRemovesAll(s[1..]);
    }
  }

  /** A title without newlines is kept as it is. */
  lemma {:induction false} ReplaceNewlinesKeepsPlainText(s: string)
    requires '\n' !in s
    ensures ReplaceNewlines(s) == s
  {
    if s != [] {
      assert s == [s[0]] + s[1..];
      ReplaceNewlinesKeepsPlainText(s[1..]);
    }
  }

  /** Replacement works piece by piece. */
  lemma {:induction false} ReplaceNewlinesAppend(a: string, b: string)
    ensures ReplaceNewlines(a + b) == ReplaceNewlines(a) + ReplaceNewlines(b)
  {
    if a == [] {
      assert a + b == b;
    } else {
      assert (a + b)[1..] == a[1..] + b;
      ReplaceNewlinesAppend(a[1..], b);
    }
  }

  /** Each newline grows the text by the five extra characters of `<br />`. */
  lemma {:induction false} ReplaceNewlinesLength(s: string)
    ensures |ReplaceNewlines(s)| == |s| + 5 * multiset(s)['\n']
  {
    if s != [] {
      assert s == [s[0]] + s[1..];
      assert multiset(s) == multiset([s[0]]) + multiset(s[1..]);
      ReplaceNewlinesLength(s[1..]);
    }
  }

  // ---- titles ----

  /** The titles of a menu are those of its first part followed by those of the rest. */
  lemma {:induction false} MatchingTitlesAppend(a: seq<MenuItem>, b: seq<MenuItem>, jobType: Value)
    ensures MatchingTitles(a + b, jobType) == MatchingTitles(a, jobType) + MatchingTitles(b, jobType)
    decreases |b|
  {
    if b == [] {
      assert a + b == a;
    } else {
      var init := b[..|b| - 1];
      assert (a + b)[..|a + b| - 1] == a + init;
      assert (a + b)[|a + b| - 1] == b[|b| - 1];
      MatchingTitlesAppend(a, init, jobType);
    }
  }

  /** A menu item whose type is absent or different contributes nothing. */
  lemma {:induction false} NonMatchingIgnored(a: seq<MenuItem>, item: MenuItem, b: seq<MenuItem>, jobType: Value)
    requires !Matches(item, jobType)
    ensures MatchingTitles(a + [item] + b, jobType) == MatchingTitles(a + b, jobType)
  {
    MatchingTitlesAppend(a + [item], b, jobType);
    MatchingTitlesAppend(a, [item], jobType);
    MatchingTitlesAppend(a, b, jobType);
    assert [item][..0] == [];
  }

  /**
   * A title is in the flag exactly when some item of the job's type has it,
   * once its newlines are replaced.
   */
  lemma {:induction false} MatchingTitlesMembership(items: seq<MenuItem>, jobType: Value, t: string)
    ensures t in MatchingTitles(items, jobType) <==>
      exists i :: 0 <= i < |items| && Matches(items[i], jobType) && t == ReplaceNewlines(items[i].title)
    decreases |items|
  {
    if items != [] {
      var init := items[..|items| - 1];
      MatchingTitlesMembership(init, jobType, t);
      assert forall i :: 0 <= i < |init| ==> init[i] == items[i];
      if t in MatchingTitles(items, jobType) && t !in MatchingTitles(init, jobType) {
        assert Matches(items[|items| - 1], jobType) && t == ReplaceNewlines(items[|items| - 1].title);
      }
    }
  }

  /** There is one title per matching item, so never more titles than items. */
  lemma {:induction false} MatchingTitlesBound(items: seq<MenuItem>, jobType: Value)
    ensures |MatchingTitles(items, jobType)| <= |items|
    ensures (forall i :: 0 <= i < |items| ==> Matches(items[i], jobType)) ==>
              |MatchingTitles(items, jobType)| == |items|
    decreases |items|
  {
    if items != [] {
      var init := items[..|items| - 1];
      assert forall i :: 0 <= i < |init| ==> init[i] == items[i];
      MatchingTitlesBound(init, jobType);
    }
  }

  /** No title in the flag contains a raw newline. */
  lemma {:induction false} MatchingTitlesHaveNoNewlines(items: seq<MenuItem>, jobType: Value)
    ensures forall t :: t in MatchingTitles(items, jobType) ==> '\n' !in t
  {
    forall t | t in MatchingTitles(items, jobType)
      ensures '\n' !in t
    {
      MatchingTitlesMembership(items, jobType, t);
      var i :| 0 <= i < |items| && Matches(items[i], jobType) && t == ReplaceNewlines(items[i].title);
      ReplaceNewlinesRemovesAll(items[i].title);
    }
  }
}
