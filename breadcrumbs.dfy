/// Breadcrumbs of the dashboard header: the current path is cut into
/// segments, `dashboard` and empty segments are dropped, and every remaining
/// segment becomes an item whose link is the dashboard path up to and
/// including it and whose name is a Spanish translation or the segment in
/// title case.
module Breadcrumbs {

  /// One breadcrumb: the name shown, the link, and whether it is the
  /// current page (the last item) rather than a link.
  datatype BreadcrumbItem = BreadcrumbItem(name: string, path: string, isLast: bool)

  /// ASCII case mapping; other characters are left unchanged.
  function LowerChar(c: char): char
  {
    if 'A' <= c <= 'Z' then (c as int + 32) as char else c
  }

  function UpperChar(c: char): char
  {
    if 'a' <= c <= 'z' then (c as int - 32) as char else c
  }

  function Lower(s: string): (r: string)
    ensures |r| == |s|
  {
    seq(|s|, k requires 0 <= k < |s| => LowerChar(s[k]))
  }

  /// A word character of a regular expression: a letter, a digit or `_`.
  predicate IsWordChar(c: char)
  {
    'a' <= c <= 'z' || 'A' <= c <= 'Z' || '0' <= c <= '9' || c == '_'
  }

  predicate IsSeparator(c: char) { c == '-' || c == '_' }

  /// Every `-` and `_` becomes a space.
  function ReplaceSeparators(s: string): (r: string)
    ensures |r| == |s|
  {
    seq(|s|, k requires 0 <= k < |s| => if IsSeparator(s[k]) then ' ' else s[k])
  }

  /// Whether position k of s starts a word: a word character with no word
  /// character before it.
  predicate StartsWord(s: string, k: int)
    requires 0 <= k < |s|
  {
    IsWordChar(s[k]) && (k == 0 || !IsWordChar(s[k - 1]))
  }

  /// The first character of every word in upper case.
  function TitleCase(s: string): (r: string)
    ensures |r| == |s|
  {
    seq(|s|, k requires 0 <= k < |s| => if StartsWord(s, k) then UpperChar(s[k]) else s[k])
  }

  /// A leading `/` removed, if there is one.
  function StripLeadingSlash(path: string): string
  {
    if |path| > 0 && path[0] == '/' then path[1..] else path
  }

  /// The pieces of s between occurrences of sep; an empty string is one
  /// empty piece and two adjacent separators leave an empty piece between
  /// them.
  function Split(s: string, sep: char): (parts: seq<string>)
    ensures |parts| >= 1
  {
    if |s| == 0 then [""]
    else
      var rest := Split(s[1..], sep);
      if s[0] == sep then [""] + rest
      else [[s[0]] + rest[0]] + rest[1..]
  }

  /// The pieces put back together with sep between them.
  function Join(parts: seq<string>, sep: char): string
    requires |parts| >= 1
  {
    if |parts| == 1 then parts[0] else parts[0] + [sep] + Join(parts[1..], sep)
  }

  /// Splitting and joining again gives back the string.
  lemma {:induction false} JoinSplit(s: string, sep: char)
    ensures Join(Split(s, sep), sep) == s
  {
    if |s| > 0 {
      var rest := Split(s[1..], sep);
      JoinSplit(s[1..], sep);
      if s[0] == sep {
        assert ([""] + rest)[1..] == rest;
      } else if |rest| > 1 {
        var parts := Split(s, sep);
        assert parts[1..] == rest[1..];
        assert Join(parts, sep) == [s[0]] + rest[0] + [sep] + Join(rest[1..], sep);
        assert [s[0]] + (rest[0] + [sep] + Join(rest[1..], sep)) == [s[0]] + s[1..];
      }
      assert [s[0]] + s[1..] == s;
    }
  }

  /// A string without sep is a single piece.
  lemma {:induction false} SplitWithoutSeparator(w: string, sep: char)
    requires sep !in w
    ensures Split(w, sep) == [w]
  {
    if |w| > 0 {
      SplitWithoutSeparator(w[1..], sep);
      assert [w[0]] + w[1..] == w;
    }
  }

  /// A piece without sep followed by sep splits off as the first piece.
  lemma {:induction false} SplitFirstPiece(w: string, t: string, sep: char)
    requires sep !in w
    ensures Split(w + [sep] + t, sep) == [w] + Split(t, sep)
  {
    var s := w + [sep] + t;
    if |w| == 0 {
      assert s[1..] == t;
    } else {
      assert s[1..] == w[1..] + [sep] + t;
      SplitFirstPiece(w[1..], t, sep);
      assert [w[0]] + w[1..] == w;
    }
  }

  /// Joining pieces that do not contain sep and splitting again gives back
  /// the pieces.
  lemma {:induction false} SplitJoin(parts: seq<string>, sep: char)
    requires |parts| >= 1
    requires forall k :: 0 <= k < |parts| ==> sep !in parts[k]
    ensures Split(Join(parts, sep), sep) == parts
  {
    if |parts| == 1 {
      SplitWithoutSeparator(parts[0], sep);
    } else {
      SplitJoin(parts[1..], sep);
      SplitFirstPiece(parts[0], Join(parts[1..], sep), sep);
      assert [parts[0]] + parts[1..] == parts;
    }
  }

  /// Joining one more piece appends sep and the piece.
  lemma {:induction false} JoinSnoc(parts: seq<string>, p: string, sep: char)
    requires |parts| >= 1
    ensures Join(parts + [p], sep) == Join(parts, sep) + [sep] + p
  {
    if |parts| > 1 {
      assert (parts + [p])[1..] == parts[1..] + [p];
      JoinSnoc(parts[1..], p, sep);
    }
  }

  /// A segment stays unless it is empty or `dashboard` in any letter case.
  predicate Kept(segment: string)
  {
    |segment| > 0 && Lower(segment) != "dashboard"
  }

  /// The kept segments, in order.
  function KeepSegments(segments: seq<string>): (kept: seq<string>)
    ensures |kept| <= |segments|
  {
    if segments == [] then []
    else (if Kept(segments[0]) then [segments[0]] else []) + KeepSegments(segments[1..])
  }

  /// Every kept segment is one of the input and passes the filter, and
  /// every input segment that passes it is kept.
  lemma {:induction false} KeepSegmentsMembers(segments: seq<string>)
    ensures var kept := KeepSegments(segments);
            && (forall k :: 0 <= k < |kept| ==> Kept(kept[k]) && kept[k] in segments)
            && (forall k :: 0 <= k < |segments| && Kept(segments[k]) ==> segments[k] in kept)
  {
    if segments != [] {
      var rest := segments[1..];
      KeepSegmentsMembers(rest);
      var kept := KeepSegments(segments);
      var head: seq<string> := if Kept(segments[0]) then [segments[0]] else [];
      assert kept == head + KeepSegments(rest);
      forall k | 0 <= k < |kept|
        ensures Kept(kept[k]) && kept[k] in segments
      {
        if k >= |head| {
          assert kept[k] == KeepSegments(rest)[k - |head|];
          assert kept[k] in rest;
        }
      }
      forall k | 0 <= k < |segments| && Kept(segments[k])
        ensures segments[k] in kept
      {
        if k > 0 {
          assert segments[k] == rest[k - 1];
          assert segments[k] in KeepSegments(rest);
        }
      }
    }
  }

  /// Filtering a concatenation filters each part and keeps them in order.
  lemma {:induction false} KeepSegmentsAppend(a: seq<string>, b: seq<string>)
    ensures KeepSegments(a + b) == KeepSegments(a) + KeepSegments(b)
  {
    if a == [] {
      assert a + b == b;
    } else {
      KeepSegmentsAppend(a[1..], b);
      KeepFirst(a, b);
      AppendAssociates(KeepHead(a[0]), KeepSegments(a[1..]), KeepSegments(b));
    }
  }

  lemma AppendAssociates(x: seq<string>, y: seq<string>, z: seq<string>)
    ensures x + (y + z) == (x + y) + z
  {
  }

  /// One step of the filter over a concatenation with a non-empty first part.
  lemma KeepFirst(a: seq<string>, b: seq<string>)
    requires a != []
    ensures KeepSegments(a + b) == KeepHead(a[0]) + KeepSegments(a[1..] + b)
    ensures KeepSegments(a) == KeepHead(a[0]) + KeepSegments(a[1..])
  {
    assert (a + b)[0] == a[0] && (a + b)[1..] == a[1..] + b;
  }

  /// The first segment, if it is kept.
  function KeepHead(segment: string): seq<string>
  {
    if Kept(segment) then [segment] else []
  }

  /// Segments that are all kept are kept as they are.
  lemma {:induction false} KeepAll(segments: seq<string>)
    requires forall k :: 0 <= k < |segments| ==> Kept(segments[k])
    ensures KeepSegments(segments) == segments
  {
    if segments != [] {
      KeepAll(segments[1..]);
      assert [segments[0]] + segments[1..] == segments;
    }
  }

  /// Spanish names for some segments, looked up by lower-case key.
  const Translations: map<string, string> :=
    map["cash flows" := "Flujos de Caja", "cash-flows" := "Flujos de Caja",
        "new" := "Nuevo", "edit" := "Editar", "home" := "Inicio"]

  /// The name shown for a segment: its translation, looked up first with
  /// `-` and `_` read as spaces and then as written, or else the segment
  /// with `-` and `_` as spaces in title case.
  function DisplayName(segment: string): string
  {
    var lowerSegment := ReplaceSeparators(Lower(segment));
    if lowerSegment in Translations then Translations[lowerSegment]
    else if Lower(segment) in Translations then Translations[Lower(segment)]
    else TitleCase(ReplaceSeparators(segment))
  }

  /// The second lookup never decides a name: any lower-case segment that
  /// is a key is found by the first lookup too, with the same translation.
  lemma SecondLookupNeverDecides(segment: string)
    requires Lower(segment) in Translations
    ensures ReplaceSeparators(Lower(segment)) in Translations
    ensures Translations[ReplaceSeparators(Lower(segment))] == Translations[Lower(segment)]
  {
    var l := Lower(segment);
    if l == "cash-flows" {
      assert ReplaceSeparators(l) == "cash flows";
    } else {
      forall k | 0 <= k < |l|
        ensures !IsSeparator(l[k])
      {
        assert l[k] in l;
      }
      assert ReplaceSeparators(l) == l;
    }
  }

  /// A segment with a translation under either lookup is shown as the
  /// translation of its lower-case form with `-` and `_` read as spaces.
  lemma TranslatedName(segment: string)
    requires ReplaceSeparators(Lower(segment)) in Translations || Lower(segment) in Translations
    ensures ReplaceSeparators(Lower(segment)) in Translations
    ensures DisplayName(segment) == Translations[ReplaceSeparators(Lower(segment))]
  {
    if ReplaceSeparators(Lower(segment)) !in Translations {
      SecondLookupNeverDecides(segment);
    }
  }

  /// A segment without translation is shown without `-` or `_`, letter
  /// for letter the same apart from case.
  lemma UntranslatedName(segment: string)
    requires ReplaceSeparators(Lower(segment)) !in Translations
    requires Lower(segment) !in Translations
    ensures var name := DisplayName(segment);
            && |name| == |segment|
            && (forall k :: 0 <= k < |name| ==> !IsSeparator(name[k]))
            && Lower(name) == ReplaceSeparators(Lower(segment))
  {
    var name := DisplayName(segment);
    forall k | 0 <= k < |name|
      ensures !IsSeparator(name[k])
      ensures LowerChar(name[k]) == ReplaceSeparators(Lower(segment))[k]
    {
    }
  }

  /// The segments of a path, its leading slash removed.
  function Segments(path: string): seq<string>
  {
    Split(StripLeadingSlash(path), '/')
  }

  /// The segments of a path that get an item.
  function PathSegments(path: string): seq<string>
  {
    KeepSegments(Segments(path))
  }

  /// The dashboard link through the given segments.
  function LinkTo(segments: seq<string>): string
    requires |segments| >= 1
  {
    "/dashboard/" + Join(segments, '/')
  }

  /// Linking one more segment appends a slash and that segment.
  lemma LinkSnoc(segments: seq<string>, next: string)
    requires |segments| >= 1
    ensures LinkTo(segments + [next]) == LinkTo(segments) + "/" + next
  {
    JoinSnoc(segments, next, '/');
    assert "/dashboard/" + (Join(segments, '/') + ['/'] + next)
        == ("/dashboard/" + Join(segments, '/')) + "/" + next;
  }

  /// Item k of the kept segments: the dashboard path through segment k,
  /// marked as the current page when it is the last.
  function ItemAt(segments: seq<string>, k: int): BreadcrumbItem
    requires 0 <= k < |segments|
  {
    BreadcrumbItem(DisplayName(segments[k]), LinkTo(segments[..k + 1]), k == |segments| - 1)
  }

  /// One item per kept segment.
  function ItemsOf(segments: seq<string>): seq<BreadcrumbItem>
  {
    seq(|segments|, k requires 0 <= k < |segments| => ItemAt(segments, k))
  }

  /// The breadcrumbs of a path.
  function Breadcrumbs(path: string): seq<BreadcrumbItem>
  {
    ItemsOf(PathSegments(path))
  }

  /// Builds one item per kept segment of the path.
  method GetBreadcrumbItems(path: string) returns (items: seq<BreadcrumbItem>)
    ensures items == Breadcrumbs(path)
  {
    var segments := Split(StripLeadingSlash(path), '/');
    var filteredSegments := KeepSegments(segments);
    ghost var all := ItemsOf(filteredSegments);
    assert all == Breadcrumbs(path);
    if |filteredSegments| == 0 {
      return [];
    }
    items := [];
    var index := 0;
    while index < |filteredSegments|
      invariant 0 <= index <= |filteredSegments|
      invariant items == all[..index]
    {
      var segmentPath := LinkTo(filteredSegments[..index + 1]);
      var segmentName := DisplayName(filteredSegments[index]);
      assert all[index] == BreadcrumbItem(segmentName, segmentPath, index == |filteredSegments| - 1);
      assert all[..index + 1] == all[..index] + [all[index]];
      items := items + [BreadcrumbItem(segmentName, segmentPath, index == |filteredSegments| - 1)];
      index := index + 1;
    }
    assert all[..index] == all;
  }

  /// There are no breadcrumbs exactly when every segment is empty or
  /// `dashboard`.
  lemma NoBreadcrumbsIff(path: string)
    ensures Breadcrumbs(path) == [] <==> forall k :: 0 <= k < |Segments(path)| ==> !Kept(Segments(path)[k])
  {
    var segments := Segments(path);
    var kept := PathSegments(path);
    assert |Breadcrumbs(path)| == |kept|;
    KeepSegmentsMembers(segments);
    if Breadcrumbs(path) != [] {
      assert kept[0] in segments;
      var k :| 0 <= k < |segments| && segments[k] == kept[0];
      assert Kept(segments[k]);
    }
  }

  /// Only the last item is the current page, and each link extends the
  /// previous one by the next segment.
  lemma ItemsChain(path: string, k: int)
    requires 0 <= k < |Breadcrumbs(path)|
    ensures var items := Breadcrumbs(path);
            (items[k].isLast <==> k == |items| - 1)
            && (k + 1 < |items| ==>
                  items[k + 1].path == items[k].path + "/" + PathSegments(path)[k + 1])
  {
    ChainOf(PathSegments(path), k);
  }

  /// ItemsChain for the items of any list of segments.
  lemma ChainOf(segments: seq<string>, k: int)
    requires 0 <= k < |segments|
    ensures var items := ItemsOf(segments);
            (items[k].isLast <==> k == |items| - 1)
            && (k + 1 < |items| ==> items[k + 1].path == items[k].path + "/" + segments[k + 1])
  {
    var items := ItemsOf(segments);
    assert items[k] == ItemAt(segments, k);
    if k + 1 < |items| {
      assert items[k + 1] == ItemAt(segments, k + 1);
      assert segments[..k + 2] == segments[..k + 1] + [segments[k + 1]];
      LinkSnoc(segments[..k + 1], segments[k + 1]);
    }
  }

  /// `dashboard` is a single segment that is always dropped.
  lemma DashboardIsDropped()
    ensures !Kept("dashboard") && '/' !in "dashboard"
  {
    assert Lower("dashboard") == "dashboard";
  }

  /// Without its leading slash a dashboard page path is `dashboard/`
  /// followed by the rest.
  lemma DashboardPrefix(rest: string)
    ensures StripLeadingSlash("/dashboard/" + rest) == "dashboard" + ['/'] + rest
  {
    assert "/dashboard/" + rest == ['/'] + ("dashboard" + ['/'] + rest);
  }

  /// A separator-free head, a separator and a join of separator-free
  /// pieces split into the head followed by those pieces.
  lemma SplitCons(head: string, parts: seq<string>, sep: char)
    requires sep !in head && |parts| >= 1
    requires forall k :: 0 <= k < |parts| ==> sep !in parts[k]
    ensures Split(head + [sep] + Join(parts, sep), sep) == [head] + parts
  {
    SplitFirstPiece(head, Join(parts, sep), sep);
    SplitJoin(parts, sep);
  }

  /// A dropped head in front of kept segments leaves exactly those segments.
  lemma KeepDropsHead(head: string, rest: seq<string>)
    requires !Kept(head)
    requires forall k :: 0 <= k < |rest| ==> Kept(rest[k])
    ensures KeepSegments([head] + rest) == rest
  {
    assert ([head] + rest)[1..] == rest;
    KeepAll(rest);
  }

  /// Segment k of a dashboard page is kept and holds no `/`.
  predicate PageSegment(segments: seq<string>, k: int)
    requires 0 <= k < |segments|
  {
    Kept(segments[k]) && '/' !in segments[k]
  }

  /// Segments of a dashboard page: each is kept and holds no `/`.
  predicate PageSegments(segments: seq<string>)
  {
    forall k :: 0 <= k < |segments| ==> PageSegment(segments, k)
  }

  /// A dashboard page path whose segments are all kept yields exactly
  /// those segments.
  lemma DashboardPathSegments(segments: seq<string>)
    requires |segments| >= 1
    requires PageSegments(segments)
    ensures PathSegments(LinkTo(segments)) == segments
  {
    forall k | 0 <= k < |segments|
      ensures Kept(segments[k]) && '/' !in segments[k]
    {
      assert PageSegment(segments, k);
    }
    var rest := Join(segments, '/');
    DashboardPrefix(rest);
    DashboardIsDropped();
    SplitCons("dashboard", segments, '/');
    KeepDropsHead("dashboard", segments);
  }

  /// On a dashboard page whose segments are all kept, there is one item
  /// per segment and the last item links back to the page itself.
  lemma LastItemIsCurrentPage(segments: seq<string>)
    requires |segments| >= 1
    requires PageSegments(segments)
    ensures Breadcrumbs(LinkTo(segments)) == ItemsOf(segments)
    ensures |ItemsOf(segments)| == |segments|
    ensures ItemsOf(segments)[|segments| - 1].path == LinkTo(segments)
    ensures ItemsOf(segments)[|segments| - 1].isLast
  {
    DashboardPathSegments(segments);
    LastOf(segments);
  }

  /// The last item of any non-empty list of segments links through all of
  /// them and is the current page.
  lemma LastOf(segments: seq<string>)
    requires |segments| >= 1
    ensures var items := ItemsOf(segments);
            |items| == |segments|
            && items[|items| - 1].path == LinkTo(segments) && items[|items| - 1].isLast
  {
    var last := |segments| - 1;
    assert ItemsOf(segments)[last] == ItemAt(segments, last);
    assert segments[..last + 1] == segments;
  }
}
