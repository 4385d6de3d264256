/** CPU lists such as `0-3,8`: the writer, the parser elsewhere in the program, and their agreement. */
module CpuList {
  import opened Wrappers
  import opened Text
  import opened Sorting

  newtype u32 = x: int | 0 <= x < 0x1_0000_0000

  const TWO_TO_THE_32: int := 0x1_0000_0000

  predicate Leq(a: u32, b: u32) {
    a <= b
  }

  // ----- decimal numbers -----

  predicate IsDigit(c: char) {
    '0' <= c <= '9'
  }

  predicate AllDigits(s: string) {
    forall i | 0 <= i < |s| :: IsDigit(s[i])
  }

  function DigitsValue(s: string): nat
    requires AllDigits(s)
  {
    if s == "" then 0 else 10 * DigitsValue(s[..|s| - 1]) + (s[|s| - 1] - '0') as nat
  }

  function Digit(d: nat): char
    requires d < 10
  {
    '0' + d as char
  }

  function ShowNat(n: nat): (s: string)
    ensures s != "" && AllDigits(s)
  {
    if n < 10 then [Digit(n)] else ShowNat(n / 10) + [Digit(n % 10)]
  }

  function Show(n: u32): string {
    ShowNat(n as nat)
  }

  /** One optional plus sign, then digits only, and in range. */
  function ParseU32(s: string): Option<u32> {
    var digits := if s != "" && s[0] == '+' then s[1..] else s;
    if digits == "" || !AllDigits(digits) then None
    else if DigitsValue(digits) < TWO_TO_THE_32 then Some(DigitsValue(digits) as u32)
    else None
  }

  lemma ShowNatValue(n: nat)
    ensures DigitsValue(ShowNat(n)) == n
  {
    if n >= 10 {
      ShowNatValue(n / 10);
      var s := ShowNat(n);
      assert s[..|s| - 1] == ShowNat(n / 10);
    } else {
      assert [Digit(n)][..0] == "";
    }
  }

  lemma NoLeadingZero(n: nat)
    ensures |ShowNat(n)| > 1 <==> n >= 10
    ensures n > 0 ==> ShowNat(n)[0] != '0'
  {
    if n >= 10 {
      NoLeadingZero(n / 10);
    }
  }

  lemma ParseShow(n: u32)
    ensures ParseU32(Show(n)) == Some(n)
    ensures |Show(n)| > 1 ==> Show(n)[0] != '0'
  {
    ShowNatValue(n as nat);
    NoLeadingZero(n as nat);
    assert IsDigit(Show(n)[0]);
  }

  // ----- spans -----

  datatype Span = Span(lo: u32, hi: u32)

  function Through(lo: u32, hi: u32): seq<u32>
    decreases hi as int - lo as int
  {
    if lo > hi then [] else if lo == hi then [lo] else [lo] + Through(lo + 1, hi)
  }

  function Expand(spans: seq<Span>): seq<u32> {
    if spans == [] then [] else Expand(spans[..|spans| - 1]) + Through(spans[|spans| - 1].lo, spans[|spans| - 1].hi)
  }

  /** Non-empty spans in increasing order with at least one number missing between neighbours. */
  ghost predicate Separated(spans: seq<Span>) {
    && (forall i | 0 <= i < |spans| :: spans[i].lo <= spans[i].hi)
    && (forall i, j | 0 <= i < j < |spans| :: spans[i].hi as int + 1 < spans[j].lo as int)
  }

  function ShowSpan(span: Span): string {
    if span.lo == span.hi then Show(span.lo) else Show(span.lo) + "-" + Show(span.hi)
  }

  function ShowSpans(spans: seq<Span>): seq<string> {
    seq(|spans|, i requires 0 <= i < |spans| => ShowSpan(spans[i]))
  }

  lemma ThroughMembers(lo: u32, hi: u32)
    ensures forall n :: n in Through(lo, hi) <==> lo <= n <= hi
    decreases hi as int - lo as int
  {
    if lo < hi {
      ThroughMembers(lo + 1, hi);
    }
  }

  lemma ThroughSnoc(lo: u32, hi: u32)
    requires lo <= hi && hi as int + 1 < TWO_TO_THE_32
    ensures Through(lo, hi + 1) == Through(lo, hi) + [hi + 1]
    decreases hi as int - lo as int
  {
    if lo < hi {
      ThroughSnoc(lo + 1, hi);
    }
  }

  lemma ExpandSnoc(spans: seq<Span>, last: Span)
    ensures Expand(spans + [last]) == Expand(spans) + Through(last.lo, last.hi)
  {
    hide Through;
    assert (spans + [last])[..|spans|] == spans;
  }

  lemma NoSpans()
    ensures Separated([]) && Expand([]) == []
  {
  }

  lemma ExpandMembers(spans: seq<Span>, n: u32)
    ensures n in Expand(spans) <==> exists i :: 0 <= i < |spans| && spans[i].lo <= n <= spans[i].hi
  {
    hide Through, Expand;
    if spans == [] {
      NoSpans();
    } else {
      var k := |spans| - 1;
      var front := spans[..k];
      ExpandMembers(front, n);
      ThroughMembers(spans[k].lo, spans[k].hi);
      assert spans == front + [spans[k]];
      ExpandSnoc(front, spans[k]);
      if i :| 0 <= i < |spans| && spans[i].lo <= n <= spans[i].hi {
        assert i < k ==> front[i] == spans[i];
      }
      if i :| 0 <= i < k && front[i].lo <= n <= front[i].hi {
        assert spans[i] == front[i];
      }
    }
  }

  // ----- writing -----

  function Numbers(ids: seq<string>): seq<u32> {
    if ids == [] then []
    else
      Numbers(ids[..|ids| - 1])
      + (match ParseU32(ids[|ids| - 1]) case None => [] case Some(n) => [n])
  }

  /** The numbers an id list stands for, each once, in increasing order. */
  function Canonical(ids: seq<string>): seq<u32> {
    SortDedup(Leq, Numbers(ids))
  }

  /** The text shows the canonical numbers as maximal runs. */
  ghost predicate Compressed(ids: seq<string>, text: string) {
    exists spans :: Separated(spans) && Expand(spans) == Canonical(ids) && text == Join(ShowSpans(spans), ",")
  }

  method CompressCpuList(ids: seq<string>) returns (text: string)
    ensures Compressed(ids, text)
  {
    hide Join, Sort, Dedup;
    var nums: seq<u32> := [];
    for i := 0 to |ids|
      invariant nums == Numbers(ids[..i])
    {
      assert ids[..i + 1][..i] == ids[..i];
      var n := ParseU32(ids[i]);
      if n.Some? {
        nums := nums + [n.value];
      }
    }
    assert ids[..|ids|] == ids;
    LeqIsTotalOrder();
    SortDedupCorrect(Leq, nums);
    nums := Dedup(Sort(Leq, nums));
    if nums == [] {
      EmptyList();
      NoSpans();
      return "";
    }
    ghost var spans;
    text, spans := WriteRanges(nums);
  }

  method WriteRanges(nums: seq<u32>) returns (text: string, ghost spans: seq<Span>)
    requires nums != [] && StrictlySorted(Leq, nums)
    ensures Separated(spans) && Expand(spans) == nums
    ensures text == Join(ShowSpans(spans), ",")
  {
    hide Join, Show, Through, Expand, Separated;
    spans := [];
    var ranges: seq<string> := [];
    var start, end := nums[0], nums[0];
    NoSpans();
    NewSpan([], start);
    assert [] + [nums[0]] == nums[..1];
    for i := 1 to |nums|
      invariant start <= end == nums[i - 1]
      invariant Separated(spans + [Span(start, end)])
      invariant Expand(spans + [Span(start, end)]) == nums[..i]
      invariant ranges == ShowSpans(spans)
    {
      var n := nums[i];
      assert Leq(nums[i - 1], nums[i]) && nums[i - 1] != nums[i];
      assert nums[..i + 1] == nums[..i] + [n];
      if n == end + 1 {
        LastGrows(spans, start, end);
        end := n;
      } else {
        ranges := ranges + [if start == end then Show(start) else Show(start) + "-" + Show(end)];
        spans := spans + [Span(start, end)];
        NewSpan(spans, n);
        start, end := n, n;
      }
    }
    assert nums[..|nums|] == nums;
    ranges := ranges + [if start == end then Show(start) else Show(start) + "-" + Show(end)];
    spans := spans + [Span(start, end)];
    assert ranges == ShowSpans(spans);
    text := Join(ranges, ",");
  }

  lemma EmptyList()
    ensures Join(ShowSpans([]), ",") == ""
  {
    assert ShowSpans([]) == [];
  }

  lemma NewSpan(spans: seq<Span>, n: u32)
    requires Separated(spans) && (spans != [] ==> spans[|spans| - 1].hi as int + 1 < n as int)
    ensures Separated(spans + [Span(n, n)])
    ensures Expand(spans + [Span(n, n)]) == Expand(spans) + [n]
  {
    hide Expand;
    ExpandSnoc(spans, Span(n, n));
    forall i | 0 <= i < |spans| ensures spans[i].hi as int + 1 < n as int {
      assert spans[i].lo <= spans[i].hi && spans[|spans| - 1].lo <= spans[|spans| - 1].hi;
    }
  }

  lemma LastGrows(spans: seq<Span>, start: u32, end: u32)
    requires Separated(spans + [Span(start, end)]) && start <= end && end as int + 1 < TWO_TO_THE_32
    ensures Separated(spans + [Span(start, end + 1)])
    ensures Expand(spans + [Span(start, end + 1)]) == Expand(spans + [Span(start, end)]) + [end + 1]
  {
    hide Expand, Through;
    var a, b := spans + [Span(start, end)], spans + [Span(start, end + 1)];
    assert forall i | 0 <= i < |spans| :: a[i] == b[i];
    assert a[|spans|].lo == b[|spans|].lo;
    ExpandSnoc(spans, Span(start, end));
    ExpandSnoc(spans, Span(start, end + 1));
    ThroughSnoc(start, end);
    assert Expand(spans) + (Through(start, end) + [end + 1]) == Expand(spans) + Through(start, end) + [end + 1];
  }

  lemma LeqIsTotalOrder()
    ensures TotalOrder(Leq)
  {
  }

  // ----- reading -----

  /** What one comma-separated part stands for; anything unreadable stands for nothing. */
  function PartIds(part: string): seq<u32> {
    if '-' in part then
      var bounds := Split(part, '-');
      if |bounds| < 2 then []
      else
        match (ParseU32(Trim(bounds[0])), ParseU32(Trim(bounds[1])))
        case (Some(a), Some(b)) => Through(a, b)
        case _ => []
    else
      match ParseU32(Trim(part))
      case Some(n) => [n]
      case None => []
  }

  function PartsIds(parts: seq<string>): seq<u32> {
    if parts == [] then [] else PartsIds(parts[..|parts| - 1]) + PartIds(parts[|parts| - 1])
  }

  function Parts(s: string): seq<string> {
    Split(Trim(s), ',')
  }

  method ParseCpuList(s: string) returns (ids: seq<u32>)
    ensures ids == PartsIds(Parts(s))
  {
    hide ParseU32, Trim, Split, Through;
    ids := [];
    var parts := Split(Trim(s), ',');
    for i := 0 to |parts|
      invariant ids == PartsIds(parts[..i])
    {
      assert parts[..i + 1][..i] == parts[..i];
      var part := parts[i];
      if '-' in part {
        var bounds := Split(part, '-');
        if |bounds| >= 2 {
          var a, b := ParseU32(Trim(bounds[0])), ParseU32(Trim(bounds[1]));
          if a.Some? && b.Some? {
            ids := ids + Through(a.value, b.value);
          }
        }
      } else {
        var n := ParseU32(Trim(part));
        if n.Some? {
          ids := ids + [n.value];
        }
      }
    }
    assert parts[..|parts|] == parts;
  }

  // ----- the round trip -----

  lemma DigitsArePlain(n: u32)
    ensures var s := Show(n); Word(s) && Trim(s) == s && '-' !in s && ',' !in s
  {
    var s := Show(n);
    forall i | 0 <= i < |s| ensures !IsSpace(s[i]) && s[i] != '-' && s[i] != ',' {
      assert IsDigit(s[i]);
    }
    TrimFixed(s);
  }

  lemma DashIsPlain()
    ensures !IsSpace('-')
  {
  }

  lemma SpanReadsBack(span: Span)
    requires span.lo <= span.hi
    ensures PartIds(ShowSpan(span)) == Through(span.lo, span.hi)
    ensures Word(ShowSpan(span)) && ',' !in ShowSpan(span)
  {
    hide Show, ParseU32, Trim, IsSpace, Split;
    var a, b := Show(span.lo), Show(span.hi);
    DigitsArePlain(span.lo);
    DigitsArePlain(span.hi);
    ParseShow(span.lo);
    ParseShow(span.hi);
    if span.lo != span.hi {
      SplitAppend(a, '-', b);
      SplitNone(b, '-');
      DashIsPlain();
      assert ShowSpan(span)[|a|] == '-';
    } else {
      assert Through(span.lo, span.hi) == [span.lo];
    }
  }

  /** Everything from 0. */
  lemma RangeReadsBack(last: u32, n: u32)
    ensures n in PartsIds(Parts("0-" + Show(last))) <==> n <= last
  {
    hide Show, ParseU32, Trim, IsSpace, Split, Through;
    var a, b := Show(0), Show(last);
    assert a == "0" && "0-" + b == a + "-" + b by {
      ShowZero();
    }
    var text := a + "-" + b;
    DigitsArePlain(0);
    DigitsArePlain(last);
    ParseShow(0);
    ParseShow(last);
    SplitAppend(a, '-', b);
    SplitNone(b, '-');
    DashIsPlain();
    assert text[|a|] == '-' && Word(text);
    TrimFixed(text);
    SplitNone(text, ',');
    assert [text] == [] + [text] && PartsIds([]) == [];
    PartsSnoc([], text);
    ThroughMembers(0, last);
  }

  lemma ShowZero()
    ensures Show(0) == "0"
  {
  }

  /** A plus sign and leading zeros make no difference to a number read. */
  lemma ParseForms(n: u32)
    ensures ParseU32("+" + Show(n)) == Some(n) && ParseU32("0" + Show(n)) == Some(n)
  {
    var s := Show(n);
    ShowNatValue(n as nat);
    assert ("+" + s)[1..] == s;
    LeadingZero(s);
    assert s[0] != '+' by {
      assert IsDigit(s[0]);
    }
    assert ("0" + s)[0] == '0';
  }

  lemma LeadingZero(s: string)
    requires AllDigits(s)
    ensures AllDigits("0" + s) && DigitsValue("0" + s) == DigitsValue(s)
  {
    var t := "0" + s;
    if s == "" {
      assert t[..0] == "" && t[0] == '0';
    } else {
      var n := |s| - 1;
      assert t[..|t| - 1] == "0" + s[..n] && t[|t| - 1] == s[n];
      LeadingZero(s[..n]);
    }
  }

  lemma PartsSnoc(parts: seq<string>, last: string)
    ensures PartsIds(parts + [last]) == PartsIds(parts) + PartIds(last)
  {
    hide PartIds;
    assert (parts + [last])[..|parts|] == parts;
  }

  lemma NoParts()
    ensures ShowSpans([]) == [] && PartsIds([]) == []
  {
  }

  lemma ShowSnoc(spans: seq<Span>, last: Span)
    ensures ShowSpans(spans + [last]) == ShowSpans(spans) + [ShowSpan(last)]
  {
    hide ShowSpan;
  }

  lemma SpansReadBack(spans: seq<Span>)
    requires forall i | 0 <= i < |spans| :: spans[i].lo <= spans[i].hi
    ensures PartsIds(ShowSpans(spans)) == Expand(spans)
  {
    hide PartIds, PartsIds, ShowSpan, ShowSpans, Through, Expand;
    if spans == [] {
      NoSpans();
      NoParts();
    } else {
      var n := |spans| - 1;
      var front, last := spans[..n], spans[n];
      assert spans == front + [last];
      SpansReadBack(front);
      SpanReadsBack(last);
      ShowSnoc(front, last);
      PartsSnoc(ShowSpans(front), ShowSpan(last));
      ExpandSnoc(front, last);
    }
  }

  lemma JoinOfWords(pieces: seq<string>)
    requires pieces != [] && Words(pieces)
    ensures var s := Join(pieces, ","); s != "" && !IsSpace(s[0]) && !IsSpace(s[|s| - 1])
  {
    hide IsSpace;
    if |pieces| > 1 {
      JoinOfWords(pieces[1..]);
      assert Word(pieces[0]);
    }
  }

  lemma WrittenParts(spans: seq<Span>)
    requires forall i | 0 <= i < |spans| :: spans[i].lo <= spans[i].hi
    ensures Parts(Join(ShowSpans(spans), ",")) == if spans == [] then [""] else ShowSpans(spans)
  {
    hide IsSpace, ShowSpan;
    var pieces := ShowSpans(spans);
    forall i | 0 <= i < |spans| ensures Word(pieces[i]) && ',' !in pieces[i] {
      SpanReadsBack(spans[i]);
    }
    if spans != [] {
      JoinOfWords(pieces);
      SplitJoin(pieces, ',');
    }
    TrimFixed(Join(pieces, ","));
  }

  /** Reading back a written list gives the distinct ids in increasing order, the empty list included. */
  lemma CpuListRoundTrip(ids: seq<string>, text: string)
    requires Compressed(ids, text)
    ensures PartsIds(Parts(text)) == Canonical(ids)
    ensures StrictlySorted(Leq, Canonical(ids)) && forall n :: n in Canonical(ids) <==> n in Numbers(ids)
  {
    hide Expand, ShowSpans, PartsIds, Parts, PartIds, Canonical, Numbers;
    var spans :| Separated(spans) && Expand(spans) == Canonical(ids) && text == Join(ShowSpans(spans), ",");
    WrittenParts(spans);
    SpansReadBack(spans);
    CanonicalIsSorted(ids);
    if spans == [] {
      NoSpans();
      EmptyPart();
    }
  }

  /** One number alone, or the first and the last of two or more, with a dash between. */
  ghost predicate IsRange(part: string, lo: u32, hi: u32) {
    if lo == hi then part == Show(lo) else lo < hi && part == Show(lo) + "-" + Show(hi)
  }

  /** The parts of a written list are such ranges, increasing and with a gap between each and the next. */
  lemma WrittenRanges(ids: seq<string>, text: string) returns (lo: seq<u32>, hi: seq<u32>)
    requires Compressed(ids, text) && Canonical(ids) != []
    ensures |lo| == |hi| == |Parts(text)|
    ensures forall i | 0 <= i < |lo| :: IsRange(Parts(text)[i], lo[i], hi[i])
    ensures forall i | 0 < i < |lo| :: hi[i - 1] as int + 1 < lo[i] as int
  {
    hide Expand, Parts, Canonical, Show;
    var spans: seq<Span> :| Separated(spans) && Expand(spans) == Canonical(ids) && text == Join(ShowSpans(spans), ",");
    WrittenParts(spans);
    if spans == [] {
      NoSpans();
    }
    lo := seq(|spans|, i requires 0 <= i < |spans| => spans[i].lo);
    hi := seq(|spans|, i requires 0 <= i < |spans| => spans[i].hi);
  }

  lemma CanonicalIsSorted(ids: seq<string>)
    ensures StrictlySorted(Leq, Canonical(ids)) && forall n :: n in Canonical(ids) <==> n in Numbers(ids)
  {
    LeqIsTotalOrder();
    SortDedupCorrect(Leq, Numbers(ids));
  }

  lemma EmptyPart()
    ensures PartsIds([""]) == []
  {
    assert [""][..0] == [];
    assert PartsIds([""]) == PartsIds([""][..0]) + PartIds("");
  }

  // ----- no shorter way to write it -----

  /** One part stands for a stretch of consecutive numbers. */
  lemma PartIsInterval(part: string, a: u32, b: u32, n: u32)
    requires a in PartIds(part) && b in PartIds(part) && a <= n <= b
    ensures n in PartIds(part)
  {
    hide ParseU32, Trim, Split;
    if '-' in part {
      var bounds := Split(part, '-');
      var lo, hi := ParseU32(Trim(bounds[0])), ParseU32(Trim(bounds[1]));
      ThroughMembers(lo.value, hi.value);
    }
  }

  /** The part a number of a list comes from. */
  lemma PartOf(parts: seq<string>, n: u32) returns (i: nat)
    requires n in PartsIds(parts)
    ensures i < |parts| && n in PartIds(parts[i])
  {
    hide PartIds;
    var k := |parts| - 1;
    if n in PartIds(parts[k]) {
      i := k;
    } else {
      i := PartOf(parts[..k], n);
    }
  }

  lemma PartMember(parts: seq<string>, i: nat, n: u32)
    requires i < |parts| && n in PartIds(parts[i])
    ensures n in PartsIds(parts)
  {
    hide PartIds;
    var k := |parts| - 1;
    if i < k {
      PartMember(parts[..k], i, n);
    }
  }

  /** Different numbers from 0 up to `bound`: there are at most `bound` of them. */
  lemma {:induction false} Pigeonhole(at: seq<nat>, bound: nat)
    requires forall i | 0 <= i < |at| :: at[i] < bound
    requires forall i, j | 0 <= i < j < |at| :: at[i] != at[j]
    ensures |at| <= bound
  {
    if at != [] {
      var first := at[0];
      if bound == 0 {
        assert false;
      } else if i :| 0 <= i < |at| && at[i] == bound - 1 {
        var rest := at[..i] + at[i + 1..];
        assert forall k | 0 <= k < |rest| :: rest[k] == at[if k < i then k else k + 1];
        Pigeonhole(rest, bound - 1);
      } else {
        Pigeonhole(at, bound - 1);
      }
    }
  }

  lemma GapIsMissing(spans: seq<Span>, i: nat, j: nat)
    requires Separated(spans) && i < j < |spans| && spans[i].hi as int + 1 < TWO_TO_THE_32
    ensures spans[i].hi + 1 !in Expand(spans)
  {
    ExpandMembers(spans, spans[i].hi + 1);
  }

  lemma AsManyParts(spans: seq<Span>, other: string)
    requires Separated(spans)
    requires forall n :: n in PartsIds(Parts(other)) <==> n in Expand(spans)
    ensures |spans| <= |Parts(other)|
  {
    hide PartIds, Parts, Expand, PartsIds;
    var parts := Parts(other);
    var at: seq<nat> := [];
    for i := 0 to |spans|
      invariant |at| == i
      invariant forall k | 0 <= k < i :: at[k] < |parts| && spans[k].lo in PartIds(parts[at[k]])
    {
      ExpandMembers(spans, spans[i].lo);
      var p := PartOf(parts, spans[i].lo);
      at := at + [p];
    }
    forall i, j | 0 <= i < j < |at| ensures at[i] != at[j] {
      if at[i] == at[j] {
        var gap := spans[i].hi + 1;
        PartIsInterval(parts[at[i]], spans[i].lo, spans[j].lo, gap);
        PartMember(parts, at[i], gap);
        GapIsMissing(spans, i, j);
        assert false;
      }
    }
    Pigeonhole(at, |parts|);
  }

  /** Any text that stands for the same numbers has at least as many parts. */
  lemma FewestParts(ids: seq<string>, text: string, other: string)
    requires Compressed(ids, text)
    requires forall n :: n in PartsIds(Parts(other)) <==> n in Numbers(ids)
    ensures |Parts(text)| <= |Parts(other)|
  {
    hide Expand, ShowSpans, PartsIds, Canonical, Numbers;
    var spans :| Separated(spans) && Expand(spans) == Canonical(ids) && text == Join(ShowSpans(spans), ",");
    CanonicalIsSorted(ids);
    WrittenParts(spans);
    AsManyParts(spans, other);
    ShowLength(spans);
  }

  lemma ShowLength(spans: seq<Span>)
    ensures |ShowSpans(spans)| == |spans|
  {
  }
}
