/**
 * The slide list of main.py and main2.py: the directory listing filtered to
 * `slide*.png` and sorted by the number between the prefix and the suffix.
 */
module Slides {

  const Prefix := "slide"
  const Suffix := ".png"

  predicate StartsWithPrefix(f: string) {
    |f| >= |Prefix| && f[..|Prefix|] == Prefix
  }

  predicate EndsWithSuffix(f: string) {
    |f| >= |Suffix| && f[|f| - |Suffix|..] == Suffix
  }

  /** `f.startswith("slide") and f.endswith(".png")`: the two tests never overlap, so such a name has at least nine characters. */
  predicate IsSlideFile(f: string)
    ensures IsSlideFile(f) ==> |f| >= |Prefix| + |Suffix|
  {
    SlideFileLength(f);
    StartsWithPrefix(f) && EndsWithSuffix(f)
  }

  /** What lies between the prefix and the suffix. */
  function Middle(f: string): string
    requires IsSlideFile(f)
  {
    f[|Prefix|..|f| - |Suffix|]
  }

  /** `slide` and `.png` share no character at their ends, so they cannot overlap. */
  lemma SlideFileLength(f: string)
    ensures StartsWithPrefix(f) && EndsWithSuffix(f) ==> |f| >= |Prefix| + |Suffix|
  {
    if StartsWithPrefix(f) && EndsWithSuffix(f) {
      assert f[|f| - |Suffix|] == f[|f| - |Suffix|..][0] == '.';
      assert forall i :: 0 <= i < |Prefix| ==> f[i] == f[..|Prefix|][i] == Prefix[i] != '.';
    }
  }

  /** A slide file is its prefix, its middle and its suffix. */
  lemma MiddleRecomposes(f: string)
    requires IsSlideFile(f)
    ensures f == Prefix + Middle(f) + Suffix
  {
    assert f == f[..|Prefix|] + Middle(f) + f[|f| - |Suffix|..];
  }

  predicate IsDigit(c: char) {
    '0' <= c <= '9'
  }

  predicate IsDigits(s: string) {
    |s| > 0 && forall i :: 0 <= i < |s| ==> IsDigit(s[i])
  }

  function Pow10(n: nat): (p: nat)
    ensures p >= 1
  {
    if n == 0 then 1 else 10 * Pow10(n - 1)
  }

  /** The value of a decimal numeral, most significant digit first; it has at most as many digits as the numeral, so it is below 10^|s|. */
  function DigitsValue(s: string): (v: nat)
    requires forall i :: 0 <= i < |s| ==> IsDigit(s[i])
    ensures v < Pow10(|s|)
  {
    if s == [] then 0
    else
      assert IsDigit(s[|s| - 1]);
      var d := s[|s| - 1] as int - '0' as int;
      var prev := DigitsValue(s[..|s| - 1]);
      assert prev * 10 + d < Pow10(|s|) by {
        assert prev + 1 <= Pow10(|s| - 1);
        assert (prev + 1) * 10 <= Pow10(|s| - 1) * 10;
      }
      prev * 10 + d
  }

  /** Leading zeros do not change the value, as with `int("01") == 1`. */
  lemma {:induction false} LeadingZeroIgnored(s: string)
    requires forall i :: 0 <= i < |s| ==> IsDigit(s[i])
    ensures forall i :: 0 <= i < |"0" + s| ==> IsDigit(("0" + s)[i])
    ensures DigitsValue("0" + s) == DigitsValue(s)
    decreases |s|
  {
    var z := "0" + s;
    assert forall i :: 0 <= i < |z| ==> IsDigit(z[i]) by {
      forall i | 0 <= i < |z| ensures IsDigit(z[i]) {
        if i > 0 { assert z[i] == s[i - 1]; }
      }
    }
    if s == [] {
      assert z[..0] == [];
    } else {
      var init := s[..|s| - 1];
      assert z[..|z| - 1] == "0" + init;
      assert z[|z| - 1] == s[|s| - 1];
      LeadingZeroIgnored(init);
    }
  }

  /** A name the sort key can read: `slide<digits>.png`. Any other slide file makes `int()` raise. */
  predicate Keyed(f: string) {
    IsSlideFile(f) && IsDigits(Middle(f))
  }

  /** `int(x.replace("slide", "").replace(".png", ""))` on a keyed name: a number of as many digits as the middle. */
  function SlideKey(f: string): (k: nat)
    requires Keyed(f)
    ensures k < Pow10(|f| - |Prefix| - |Suffix|)
  {
    DigitsValue(Middle(f))
  }

  /** `slide01.png` and `slide1.png` have the same key. */
  lemma LeadingZeroSameKey(f: string)
    requires Keyed(f)
    ensures Keyed(Prefix + "0" + Middle(f) + Suffix)
    ensures SlideKey(Prefix + "0" + Middle(f) + Suffix) == SlideKey(f)
  {
    var m := Middle(f);
    var g := Prefix + "0" + m + Suffix;
    LeadingZeroIgnored(m);
    assert g[..|Prefix|] == Prefix;
    assert g[|g| - |Suffix|..] == Suffix;
    assert Middle(g) == "0" + m;
  }

  /** Every slide file of the listing has a numeric middle. */
  predicate WellNamed(listing: seq<string>) {
    forall f :: f in listing && IsSlideFile(f) ==> IsDigits(Middle(f))
  }

  /** The list comprehension: keep the slide files, in listing order. */
  function SlideFiles(listing: seq<string>): (r: seq<string>)
    ensures forall f :: f in r <==> f in listing && IsSlideFile(f)
    ensures |r| <= |listing|
  {
    if listing == [] then []
    else if IsSlideFile(listing[0]) then [listing[0]] + SlideFiles(listing[1..])
    else SlideFiles(listing[1..])
  }

  /** A slide file together with its sort key, computed once. */
  datatype Entry = Entry(key: nat, name: string)

  /** The entry's key is the slide key of its name. */
  predicate Faithful(e: Entry) {
    Keyed(e.name) && e.key == SlideKey(e.name)
  }

  predicate AllFaithful(es: seq<Entry>) {
    forall i :: 0 <= i < |es| ==> Faithful(es[i])
  }

  function Names(es: seq<Entry>): (ns: seq<string>)
  {
    seq(|es|, i requires 0 <= i < |es| => es[i].name)
  }

  lemma NamesConcat(a: seq<Entry>, b: seq<Entry>)
    ensures Names(a + b) == Names(a) + Names(b)
  {
  }

  /** Rearranging the entries rearranges their names. */
  lemma {:induction false} NamesPermutation(a: seq<Entry>, b: seq<Entry>)
    requires multiset(a) == multiset(b)
    ensures multiset(Names(a)) == multiset(Names(b))
    decreases |a|
  {
    if a == [] {
      assert b == [] by { assert |multiset(b)| == 0; }
    } else {
      var x := a[0];
      assert x in multiset(b);
      var k :| 0 <= k < |b| && b[k] == x;
      var b' := b[..k] + b[k + 1..];
      assert b == b[..k] + [x] + b[k + 1..];
      assert a == [x] + a[1..];
      assert multiset(b) == multiset(b[..k]) + multiset{x} + multiset(b[k + 1..]);
      assert multiset(a) == multiset{x} + multiset(a[1..]);
      assert multiset(b') == multiset(b[..k]) + multiset(b[k + 1..]);
      assert multiset(a[1..]) == multiset(a) - multiset{x};
      assert multiset(b') == multiset(b) - multiset{x};
      NamesPermutation(a[1..], b');
      NamesConcat([x], a[1..]);
      NamesConcat(b[..k] + [x], b[k + 1..]);
      NamesConcat(b[..k], [x]);
      NamesConcat(b[..k], b[k + 1..]);
    }
  }

  /** Neighbours are in key order. */
  predicate SortedByKey(es: seq<Entry>) {
    forall i :: 0 < i < |es| ==> es[i - 1].key <= es[i].key
  }

  /** Sorted neighbours make every earlier key at most every later one. */
  lemma {:induction false} SortedAllPairs(es: seq<Entry>, i: int, j: int)
    requires SortedByKey(es) && 0 <= i <= j < |es|
    ensures es[i].key <= es[j].key
    decreases j - i
  {
    if i < j {
      SortedAllPairs(es, i, j - 1);
    }
  }

  /** Places e after every entry whose key is not greater, so equal keys keep their order. */
  function Insert(e: Entry, sorted: seq<Entry>): (r: seq<Entry>)
    requires SortedByKey(sorted)
    ensures SortedByKey(r)
    ensures multiset(r) == multiset(sorted) + multiset{e}
    ensures |r| == |sorted| + 1
    ensures r[0] == e || (|sorted| > 0 && r[0] == sorted[0])
  {
    if sorted == [] then [e]
    else if e.key < sorted[0].key then
      [e] + sorted
    else
      var rest := Insert(e, sorted[1..]);
      assert sorted == [sorted[0]] + sorted[1..];
      var r := [sorted[0]] + rest;
      assert sorted[0].key <= rest[0].key by {
        if rest[0] != e { assert rest[0] == sorted[1]; }
      }
      assert SortedByKey(r) by {
        forall i | 0 < i < |r| ensures r[i - 1].key <= r[i].key {
          if i > 1 { assert r[i - 1] == rest[i - 2] && r[i] == rest[i - 1]; }
        }
      }
      assert multiset(r) == multiset{sorted[0]} + multiset(rest);
      r
  }

  /** `sorted(..., key=...)` as an insertion sort that takes the entries from left to right. */
  function Sort(es: seq<Entry>): (r: seq<Entry>)
    ensures SortedByKey(r)
    ensures multiset(r) == multiset(es)
    ensures |r| == |es|
  {
    if es == [] then []
    else
      var init := es[..|es| - 1];
      assert es == init + [es[|es| - 1]];
      Insert(es[|es| - 1], Sort(init))
  }

  /** Pairs every slide file of a well-named listing with its key. */
  function Entries(fs: seq<string>): (es: seq<Entry>)
    requires forall i :: 0 <= i < |fs| ==> Keyed(fs[i])
    ensures AllFaithful(es) && Names(es) == fs
  {
    if fs == [] then []
    else
      assert Keyed(fs[0]);
      var e := Entry(SlideKey(fs[0]), fs[0]);
      var es := [e] + Entries(fs[1..]);
      NamesConcat([e], Entries(fs[1..]));
      assert fs == [fs[0]] + fs[1..];
      es
  }

  /** Sorting keeps every entry faithful to its name. */
  lemma SortKeepsFaithful(es: seq<Entry>)
    requires AllFaithful(es)
    ensures AllFaithful(Sort(es))
  {
    var sorted := Sort(es);
    forall i | 0 <= i < |sorted| ensures Faithful(sorted[i]) {
      assert sorted[i] in multiset(es);
    }
  }

  /** The names of faithful entries in key order are keyed and in slide-key order. */
  lemma {:induction false} SortedNamesInKeyOrder(es: seq<Entry>)
    requires AllFaithful(es) && SortedByKey(es)
    ensures forall i :: 0 <= i < |Names(es)| ==> Keyed(Names(es)[i])
    ensures forall i, j :: 0 <= i < j < |Names(es)| ==> SlideKey(Names(es)[i]) <= SlideKey(Names(es)[j])
  {
    var r := Names(es);
    forall i | 0 <= i < |r| ensures Keyed(r[i]) {
      assert Faithful(es[i]);
    }
    forall i, j | 0 <= i < j < |r| ensures SlideKey(r[i]) <= SlideKey(r[j]) {
      assert Faithful(es[i]) && Faithful(es[j]);
      SortedAllPairs(es, i, j);
    }
  }

  /** Every slide file of a well-named listing is keyed. */
  lemma SlideFilesKeyed(listing: seq<string>)
    requires WellNamed(listing)
    ensures forall i :: 0 <= i < |SlideFiles(listing)| ==> Keyed(SlideFiles(listing)[i])
  {
    var fs := SlideFiles(listing);
    forall i | 0 <= i < |fs| ensures Keyed(fs[i]) {
      assert fs[i] in fs;
    }
  }

  /** `pathImages`: the slide files of the listing, ordered by their number (not by their spelling). */
  function SortedSlides(listing: seq<string>): (r: seq<string>)
    requires WellNamed(listing)
    ensures forall i :: 0 <= i < |r| ==> Keyed(r[i])
    ensures forall i, j :: 0 <= i < j < |r| ==> SlideKey(r[i]) <= SlideKey(r[j])
    ensures multiset(r) == multiset(SlideFiles(listing))
    ensures forall f :: f in r <==> f in listing && IsSlideFile(f)
  {
    SlideFilesKeyed(listing);
    var es := Entries(SlideFiles(listing));
    var sorted := Sort(es);
    NamesPermutation(sorted, es);
    SortKeepsFaithful(es);
    SortedNamesInKeyOrder(sorted);
    var r := Names(sorted);
    assert forall f :: f in r <==> f in multiset(r);
    r
  }

  lemma ExampleKeys()
    ensures Keyed("slide1.png") && SlideKey("slide1.png") == 1
    ensures Keyed("slide2.png") && SlideKey("slide2.png") == 2
    ensures Keyed("slide10.png") && SlideKey("slide10.png") == 10
  {
    assert Middle("slide1.png") == "1";
    assert Middle("slide2.png") == "2";
    assert Middle("slide10.png") == "10";
    assert DigitsValue("1") == 1 by { assert "1"[..0] == ""; }
    assert DigitsValue("2") == 2 by { assert "2"[..0] == ""; }
    assert DigitsValue("10") == 10 by { assert "10"[..1] == "1"; }
  }

  /** In a sequence ordered by slide key, a smaller key sits at an earlier position. */
  lemma SmallerKeyEarlier(r: seq<string>, i: int, j: int)
    requires forall k :: 0 <= k < |r| ==> Keyed(r[k])
    requires forall k, l :: 0 <= k < l < |r| ==> SlideKey(r[k]) <= SlideKey(r[l])
    requires 0 <= i < |r| && 0 <= j < |r| && SlideKey(r[i]) < SlideKey(r[j])
    ensures i < j
  {
  }

  /** Of two slide files in the listing, the one with the smaller number is shown first. */
  lemma SmallerNumberFirst(listing: seq<string>, a: string, b: string)
    requires WellNamed(listing) && a in listing && b in listing
    requires Keyed(a) && Keyed(b) && SlideKey(a) < SlideKey(b)
    ensures exists i, j ::
      (0 <= i < j < |SortedSlides(listing)| &&
       SortedSlides(listing)[i] == a && SortedSlides(listing)[j] == b)
  {
    var r := SortedSlides(listing);
    assert a in r && b in r;
    var i :| 0 <= i < |r| && r[i] == a;
    var j :| 0 <= j < |r| && r[j] == b;
    SmallerKeyEarlier(r, i, j);
  }

  /** Numeric, not lexical: wherever they appear in the listing, slide2.png is shown before slide10.png. */
  lemma TwoBeforeTen(listing: seq<string>)
    requires WellNamed(listing)
    requires "slide2.png" in listing && "slide10.png" in listing
    ensures exists i, j ::
      (0 <= i < j < |SortedSlides(listing)| &&
       SortedSlides(listing)[i] == "slide2.png" && SortedSlides(listing)[j] == "slide10.png")
  {
    ExampleKeys();
    SmallerNumberFirst(listing, "slide2.png", "slide10.png");
  }
}
