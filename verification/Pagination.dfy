/** Listing cached sessions: newest first, filtered by their metadata, cut into pages. */
module Pagination {
  import opened Common
  import opened SessionModel
  import opened Sorting

  /** `None`, the empty list and the empty text filter nothing. */
  datatype Filters = Filters(mode: Option<string>, project: Option<string>, tags: seq<string>, search: string)

  predicate HasText(m: Metadata, field: string, text: Option<string>) {
    text.Some? ==> field in m && m[field] == Str(text.value)
  }

  /** The tags of a session; a list with anything but texts counts as none. */
  function TagsOf(m: Metadata): set<string> {
    if "tags" in m && m["tags"].Arr? && forall i :: 0 <= i < |m["tags"].items| ==> m["tags"].items[i].Str?
    then set i | 0 <= i < |m["tags"].items| :: m["tags"].items[i].text else {}
  }

  function TitleOf(m: Metadata): string {
    if "title" in m && m["title"].Str? then m["title"].text else ""
  }

  predicate OccursAt(part: string, text: string, i: int) {
    0 <= i <= |text| - |part| && text[i..i + |part|] == part
  }

  predicate Occurs(part: string, text: string) {
    exists i :: 0 <= i <= |text| && OccursAt(part, text, i)
  }

  predicate Matches(lower: string -> string, f: Filters, s: Session) {
    var m: Metadata := if s.metadata.Some? then s.metadata.value else map[];
    && HasText(m, "mode", f.mode) && HasText(m, "project_id", f.project)
    && (forall t :: t in f.tags ==> t in TagsOf(m))
    && (f.search != "" ==> Occurs(lower(f.search), lower(TitleOf(m))))
  }

  function Test(lower: string -> string, f: Filters): Session -> bool { s => Matches(lower, f, s) }

  function Newest(s: Session): int { 0 - s.createdAt }

  /** The sorted and filtered list that is paged. */
  function Selected(lower: string -> string, f: Filters, cached: seq<Session>): seq<Session> {
    Filter(Test(lower, f), Sort(Newest, cached))
  }

  /** A slice that ends early or is empty past the end. */
  function Slice(s: seq<Session>, from: nat, to: nat): seq<Session>
    requires from <= to
  {
    if to <= |s| then s[from..to] else if from <= |s| then s[from..] else []
  }

  datatype SessionList = SessionList(sessions: seq<Session>, total: nat)

  function ListPage(lower: string -> string, f: Filters, cached: seq<Session>, page: int, size: int): SessionList
    requires page >= 1 && size >= 1
  {
    var all := Selected(lower, f, cached);
    PageBounds(page, size);
    SessionList(Slice(all, (page - 1) * size, (page - 1) * size + size), |all|)
  }

  lemma PageBounds(page: int, size: int)
    requires page >= 1 && size >= 1
    ensures 0 <= (page - 1) * size == page * size - size
  {}

  /** The sessions of the pages 1, ..., `n`, one page after the other. */
  function Pages(lower: string -> string, f: Filters, cached: seq<Session>, n: nat, size: int): seq<Session>
    requires size >= 1
  {
    if n == 0 then [] else Pages(lower, f, cached, n - 1, size) + ListPage(lower, f, cached, n, size).sessions
  }

  lemma {:induction false} PagesAre(lower: string -> string, f: Filters, cached: seq<Session>, n: nat, size: int)
    requires size >= 1
    ensures 0 <= n * size && Pages(lower, f, cached, n, size) == Slice(Selected(lower, f, cached), 0, n * size)
  {
    if n > 0 {
      PagesAre(lower, f, cached, n - 1, size);
      PageBounds(n, size);
      hide Selected;
      var all := Selected(lower, f, cached);
      JoinSlices(all, (n - 1) * size, n * size);
    }
  }

  lemma JoinSlices(s: seq<Session>, a: nat, b: nat)
    requires a <= b
    ensures Slice(s, 0, a) + Slice(s, a, b) == Slice(s, 0, b)
  {}

  function LastPage(total: nat, size: int): nat
    requires size >= 1
  {
    (total + size - 1) / size
  }

  lemma LastPageBounds(total: nat, size: int)
    requires size >= 1
    ensures var n := LastPage(total, size); n * size >= total && (n > 0 ==> (n - 1) * size < total)
  {
    var n := LastPage(total, size);
    assert total + size - 1 == n * size + (total + size - 1) % size;
    assert (n - 1) * size == n * size - size;
  }

  lemma TimesMonotone(a: int, b: int, size: int)
    requires a <= b && size >= 1
    ensures a * size <= b * size
  {}

  /**
   The pages partition the selection: together they are all of it, in order; the pages before the
   last are full, the last one is not empty, and later ones are.
   */
  lemma PagesPartition(lower: string -> string, f: Filters, cached: seq<Session>, size: int)
    requires size >= 1
    ensures var all := Selected(lower, f, cached); var last := LastPage(|all|, size);
            && Pages(lower, f, cached, last, size) == all
            && (forall p :: 1 <= p < last ==> |ListPage(lower, f, cached, p, size).sessions| == size)
            && (last > 0 ==> ListPage(lower, f, cached, last, size).sessions != [])
            && (forall p :: p > last && p >= 1 ==> ListPage(lower, f, cached, p, size).sessions == [])
  {
    var all := Selected(lower, f, cached);
    hide Selected;
    var last := LastPage(|all|, size);
    LastPageBounds(|all|, size);
    PagesAre(lower, f, cached, last, size);
    forall p | 1 <= p < last ensures |ListPage(lower, f, cached, p, size).sessions| == size {
      PageBounds(p, size);
      TimesMonotone(p, last - 1, size);
    }
    forall p | p > last && p >= 1 ensures ListPage(lower, f, cached, p, size).sessions == [] {
      PageBounds(p, size);
      TimesMonotone(last, p - 1, size);
    }
    if last > 0 { PageBounds(last, size); }
  }

  /**
   The selection is the one list of the matching sessions that is sorted newest first and keeps
   sessions of the same time in the order they came.
   */
  lemma SelectionUnique(lower: string -> string, f: Filters, cached: seq<Session>, list: seq<Session>)
    ensures list == Selected(lower, f, cached) <==>
            Sorted(Newest, list) && SameOrder(Newest, list, Filter(Test(lower, f), cached))
  {
    var kept := Filter(Test(lower, f), cached);
    FilterSort(Newest, Test(lower, f), cached);
    SortMeets(Newest, kept);
    if Sorted(Newest, list) && SameOrder(Newest, list, kept) {
      forall k ensures WithKey(Newest, list, k) == WithKey(Newest, Sort(Newest, kept), k) {
        assert WithKey(Newest, list, k) == WithKey(Newest, kept, k);
        assert WithKey(Newest, Sort(Newest, kept), k) == WithKey(Newest, kept, k);
      }
      SortedUnique(Newest, list, Sort(Newest, kept));
    }
  }

  /** Later places have sessions of the same or an earlier time. */
  predicate NewestFirst(list: seq<Session>) {
    forall i, j :: 0 <= i < j < |list| ==> list[i].createdAt >= list[j].createdAt
  }

  /** The sessions of one time, in their order. */
  function MadeAt(list: seq<Session>, time: int): seq<Session> {
    if list == [] then [] else
      MadeAt(list[..|list| - 1], time) +
      if list[|list| - 1].createdAt == time then [list[|list| - 1]] else []
  }

  lemma {:induction false} MadeAtKey(list: seq<Session>, time: int)
    ensures MadeAt(list, time) == WithKey(Newest, list, 0 - time)
  {
    if list != [] { MadeAtKey(list[..|list| - 1], time); }
  }

  ghost predicate SameTimes(a: seq<Session>, b: seq<Session>) {
    forall time :: MadeAt(a, time) == MadeAt(b, time)
  }

  lemma OrderGivesTimes(a: seq<Session>, b: seq<Session>)
    requires SameOrder(Newest, a, b)
    ensures SameTimes(a, b)
  {
    forall time ensures MadeAt(a, time) == MadeAt(b, time) {
      MadeAtKey(a, time);
      MadeAtKey(b, time);
      assert WithKey(Newest, a, 0 - time) == WithKey(Newest, b, 0 - time);
    }
  }

  lemma TimesGiveOrder(a: seq<Session>, b: seq<Session>)
    requires SameTimes(a, b)
    ensures SameOrder(Newest, a, b)
  {
    forall k ensures WithKey(Newest, a, k) == WithKey(Newest, b, k) {
      MadeAtKey(a, 0 - k);
      MadeAtKey(b, 0 - k);
      assert MadeAt(a, 0 - k) == MadeAt(b, 0 - k);
      assert 0 - (0 - k) == k;
    }
  }

  /**
   The selection is the one list with the newest first that has, for each time, the matching
   sessions of that time in the order they came.
   */
  lemma SelectionIff(lower: string -> string, f: Filters, cached: seq<Session>, list: seq<Session>)
    ensures list == Selected(lower, f, cached) <==>
            && NewestFirst(list)
            && SameTimes(list, Filter(Test(lower, f), cached))
  {
    SelectionUnique(lower, f, cached, list);
    var kept := Filter(Test(lower, f), cached);
    if SameOrder(Newest, list, kept) { OrderGivesTimes(list, kept); }
    if SameTimes(list, kept) { TimesGiveOrder(list, kept); }
    hide Selected, SameTimes, SameOrder;
  }

  /** The value under a metadata field, if there is one. */
  function FieldOf(s: Session, field: string): Option<Json> {
    if s.metadata.Some? && field in s.metadata.value then Some(s.metadata.value[field]) else None
  }

  /** The session has a list of texts as tags, and this is one of them. */
  predicate HasTag(s: Session, tag: string) {
    var tags := FieldOf(s, "tags");
    && tags.Some? && tags.value.Arr? && Str(tag) in tags.value.items
    && forall i :: 0 <= i < |tags.value.items| ==> tags.value.items[i].Str?
  }

  /** The text contains the part. */
  ghost predicate Contains(text: string, part: string) { exists a, b :: text == a + part + b }

  lemma OccursIff(part: string, text: string)
    ensures Occurs(part, text) <==> Contains(text, part)
  {
    if i :| 0 <= i <= |text| && OccursAt(part, text, i) { assert text == text[..i] + part + text[i + |part|..]; }
    if a, b :| text == a + part + b { assert OccursAt(part, text, |a|); }
  }

  lemma TagIff(s: Session, tag: string)
    ensures tag in TagsOf(if s.metadata.Some? then s.metadata.value else map[]) <==> HasTag(s, tag)
  {}

  /** A session without a title, or with one that is no text, is searched as one with an empty title. */
  ghost predicate TitleContains(lower: string -> string, s: Session, search: string) {
    var title := FieldOf(s, "title");
    Contains(lower(match title case Some(Str(text)) => text case _ => ""), lower(search))
  }

  /** Mode and project are the given texts, all given tags are there, and the title contains the search text. */
  lemma MatchesIff(lower: string -> string, f: Filters, s: Session)
    ensures Matches(lower, f, s) <==>
            && (f.mode.Some? ==> FieldOf(s, "mode") == Some(Str(f.mode.value)))
            && (f.project.Some? ==> FieldOf(s, "project_id") == Some(Str(f.project.value)))
            && (forall t :: t in f.tags ==> HasTag(s, t))
            && (f.search != "" ==> TitleContains(lower, s, f.search))
  {
    var m: Metadata := if s.metadata.Some? then s.metadata.value else map[];
    OccursIff(lower(f.search), lower(TitleOf(m)));
    forall t ensures t in TagsOf(m) <==> HasTag(s, t) { TagIff(s, t); }
    hide HasTag, TagsOf, Occurs, Contains;
  }

  /** A session is selected exactly if it is cached and matches. */
  lemma SelectedIff(lower: string -> string, f: Filters, cached: seq<Session>, s: Session)
    ensures s in Selected(lower, f, cached) <==> s in cached && Matches(lower, f, s)
  {
    FilterMember(Test(lower, f), Sort(Newest, cached), s);
    SortMembers(Newest, cached, s);
  }
}
