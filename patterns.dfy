/** Recognisers for the string patterns of the schema annotations.
    A schema pattern is matched by searching (it is not implicitly anchored), so an
    alternative written `^$|X$` accepts the empty string or any string that ENDS with
    a match of X; the recognisers below follow that reading. */
module Patterns {

  predicate IsDigit(c: char) { '0' <= c <= '9' }

  /** `[a-z0-9]` */
  predicate IsLowerAlnum(c: char) { 'a' <= c <= 'z' || IsDigit(c) }

  /** `[A-Za-z0-9_.-]` */
  predicate IsModelChar(c: char) { IsLowerAlnum(c) || 'A' <= c <= 'Z' || c == '_' || c == '.' || c == '-' }

  /** `[a-z0-9.-]` */
  predicate IsResourceChar(c: char) { IsLowerAlnum(c) || c == '.' || c == '-' }

  /** `[0-9]+` matched exactly. */
  predicate Digits(s: string) { |s| > 0 && forall i :: 0 <= i < |s| ==> IsDigit(s[i]) }

  /** `[1-9][0-9]*` matched exactly. */
  predicate PositiveInteger(s: string) { Digits(s) && s[0] != '0' }

  /** The two-letter binary-unit suffix of `s`, when it has one of `units`. */
  predicate HasUnit(s: string, units: set<string>) { |s| >= 2 && s[|s| - 2..] in units }

  /** `^([1-9][0-9]*|[0-9]+m)$`: whole vCPUs or millicores. */
  predicate CpuQuantity(s: string) {
    PositiveInteger(s) || (|s| >= 2 && s[|s| - 1] == 'm' && Digits(s[..|s| - 1]))
  }

  /** `^([1-9][0-9]*|[0-9]+)(Mi|Gi)$`: a VM's memory size. */
  predicate MemoryQuantity(s: string) {
    HasUnit(s, {"Mi", "Gi"}) && Digits(s[..|s| - 2])
  }

  /** `^([1-9][0-9]*)(Mi|Gi)$`: a positive memory size. */
  predicate PositiveMemory(s: string) {
    HasUnit(s, {"Mi", "Gi"}) && PositiveInteger(s[..|s| - 2])
  }

  /** `^([1-9][0-9]*)(Mi|Gi|Ti)$`: a positive disk size. */
  predicate DiskSize(s: string) {
    HasUnit(s, {"Mi", "Gi", "Ti"}) && PositiveInteger(s[..|s| - 2])
  }

  /** `^$|[A-Za-z0-9_.-]+$`: empty, or ending in a character of the class. */
  predicate CpuModel(s: string) { s == "" || IsModelChar(s[|s| - 1]) }

  /** `^$|[a-z0-9]([-a-z0-9]*[a-z0-9])?$`: empty, or ending in `[a-z0-9]`. */
  predicate NicModel(s: string) { s == "" || IsLowerAlnum(s[|s| - 1]) }

  /** `^$|([0-9]+)(K|M|G)?bps$`: empty, or ending in a digit, an optional K/M/G and `bps`. */
  predicate Bandwidth(s: string) {
    s == "" ||
    (|s| >= 4 && s[|s| - 3..] == "bps" &&
      (IsDigit(s[|s| - 4]) || (|s| >= 5 && s[|s| - 4] in {'K', 'M', 'G'} && IsDigit(s[|s| - 5]))))
  }

  /** `[a-z0-9.-]+` matched exactly. */
  predicate ResourceSegment(s: string) { |s| > 0 && forall i :: 0 <= i < |s| ==> IsResourceChar(s[i]) }

  /** `^[a-z0-9.-]+/[a-z0-9.-]+$`: a `<vendor>/<resource>` device name. */
  predicate ResourceName(s: string) {
    exists k :: 0 <= k < |s| && s[k] == '/' && ResourceSegment(s[..k]) && ResourceSegment(s[k + 1..])
  }

  /** `^$|[a-z0-9.-]+/[a-z0-9.-]+$`: empty, or ending in a `<vendor>/<resource>` name. */
  predicate OptionalResourceName(s: string) {
    s == "" || exists j :: 0 <= j < |s| && ResourceName(s[j..])
  }

  /** `^$|([1-9][0-9]*)(Mi|Gi)$`: empty, or ending in a positive memory size. */
  predicate OptionalPositiveMemory(s: string) {
    s == "" || exists j :: 0 <= j < |s| && PositiveMemory(s[j..])
  }

  /** `[0-9]+(-[0-9]+)?` matched exactly: one CPU or a CPU range. */
  predicate CpuRange(s: string) {
    Digits(s) || exists k :: 0 < k < |s| && s[k] == '-' && Digits(s[..k]) && Digits(s[k + 1..])
  }

  /** `^[0-9]+(-[0-9]+)?(,[0-9]+(-[0-9]+)?)*$`: a comma-separated CPU set. */
  predicate CpuSet(s: string)
    decreases |s|
  {
    CpuRange(s) || exists k :: 0 < k < |s| && s[k] == ',' && CpuRange(s[..k]) && CpuSet(s[k + 1..])
  }

  /** Every `<vendor>/<resource>` name is accepted where the schema makes the name optional.
      (The converse fails: the search also accepts a longer value that ends in such a name.) */
  lemma ResourceNameIsOptionalResourceName(s: string)
    requires ResourceName(s)
    ensures OptionalResourceName(s)
  {
    assert s[0..] == s;
  }

  /** The unanchored search accepts `a/b/c`, which is not of the form `<vendor>/<resource>`. */
  lemma OptionalResourceNameAcceptsLongerValues()
    ensures OptionalResourceName("a/b/c") && !ResourceName("a/b/c")
  {
    var s := "a/b/c";
    assert s[2..] == "b/c" && s[2..][..1] == "b" && s[2..][2..] == "c";
    assert ResourceName(s[2..]) by {
      assert s[2..][1] == '/';
    }
    forall k | 0 <= k < |s| && s[k] == '/'
      ensures !(ResourceSegment(s[..k]) && ResourceSegment(s[k + 1..]))
    {
      if k == 1 { assert s[k + 1..][1] == '/'; } else { assert k == 3; assert s[..k][1] == '/'; }
    }
  }

  /** A CPU range, a comma and a CPU set form a CPU set. */
  lemma CpuSetCons(x: string, rest: string)
    requires CpuRange(x) && CpuSet(rest)
    ensures CpuSet(x + "," + rest)
  {
    var t := x + "," + rest;
    assert t[|x|] == ',' && t[..|x|] == x && t[|x| + 1..] == rest;
  }

  /** A CPU set split at its first comma, with `b` joined to the part after the comma. */
  lemma CpuSetConsJoined(a: string, k: nat, b: string)
    requires 0 < k < |a| && a[k] == ',' && CpuRange(a[..k]) && CpuSet(a[k + 1..] + "," + b)
    ensures CpuSet(a + "," + b)
  {
    CpuSetCons(a[..k], a[k + 1..] + "," + b);
    assert a == a[..k] + a[k..];
    assert a[k..] == "," + a[k + 1..];
    assert a + "," + b == a[..k] + "," + (a[k + 1..] + "," + b);
  }

  /** Two CPU sets joined by a comma form a CPU set. */
  lemma {:induction false} CpuSetJoin(a: string, b: string)
    requires CpuSet(a) && CpuSet(b)
    ensures CpuSet(a + "," + b)
    decreases |a|
  {
    if CpuRange(a) {
      CpuSetCons(a, b);
    } else {
      var k :| 0 < k < |a| && a[k] == ',' && CpuRange(a[..k]) && CpuSet(a[k + 1..]);
      CpuSetJoin(a[k + 1..], b);
      CpuSetConsJoined(a, k, b);
    }
  }

  /** The anchored quantity patterns refuse a value that starts with a non-digit, whatever
      follows it. */
  lemma AnchoredQuantitiesRejectLeadingJunk(c: char, s: string)
    requires !IsDigit(c)
    ensures !CpuQuantity([c] + s) && !MemoryQuantity([c] + s) && !PositiveMemory([c] + s) && !DiskSize([c] + s)
  {
    var t := [c] + s;
    if |t| >= 2 {
      assert t[..|t| - 1][0] == c;
    }
    if |t| >= 3 {
      assert t[..|t| - 2][0] == c;
    }
  }

  /** The anchored CPU-set and device-name patterns refuse a value that starts with a
      character outside their classes, whatever follows it. */
  lemma AnchoredListsRejectLeadingJunk(c: char, s: string)
    requires !IsResourceChar(c)
    ensures !CpuSet([c] + s) && !ResourceName([c] + s)
  {
    var t := [c] + s;
    assert t[0] == c;
    forall k | 0 < k < |t| ensures !Digits(t[..k]) && !ResourceSegment(t[..k]) {
      assert t[..k][0] == c;
    }
  }

  /** The searched patterns (`^$|X$`) look only at how a value ends: a non-empty CPU model,
      NIC model or bandwidth stays accepted whatever is put in front of it. */
  lemma SearchedPatternsIgnorePrefix(p: string, s: string)
    requires s != ""
    ensures CpuModel(s) ==> CpuModel(p + s)
    ensures NicModel(s) ==> NicModel(p + s)
    ensures Bandwidth(s) ==> Bandwidth(p + s)
  {
    var t := p + s;
    assert t[|t| - 1] == s[|s| - 1];
    if |s| >= 4 {
      assert t[|t| - 3..] == s[|s| - 3..] && t[|t| - 4] == s[|s| - 4];
    }
    if |s| >= 5 {
      assert t[|t| - 5] == s[|s| - 5];
    }
  }

  /** Likewise an optional device name or memory size: a value that ends in an accepted one
      is accepted. */
  lemma SearchedOptionalsIgnorePrefix(p: string, s: string)
    ensures OptionalResourceName(s) && s != "" ==> OptionalResourceName(p + s)
    ensures OptionalPositiveMemory(s) && s != "" ==> OptionalPositiveMemory(p + s)
  {
    var t := p + s;
    if s != "" && OptionalResourceName(s) {
      var j :| 0 <= j < |s| && ResourceName(s[j..]);
      assert t[|p| + j..] == s[j..];
    }
    if s != "" && OptionalPositiveMemory(s) {
      var j :| 0 <= j < |s| && PositiveMemory(s[j..]);
      assert t[|p| + j..] == s[j..];
    }
  }

  /** A positive memory size is a memory quantity and is accepted where the size is
      optional; "0Mi" is a memory quantity but not a positive size. */
  lemma PositiveMemoryIsMemoryQuantity(s: string)
    ensures PositiveMemory(s) ==> MemoryQuantity(s) && OptionalPositiveMemory(s)
    ensures MemoryQuantity("0Mi") && !PositiveMemory("0Mi")
  {
    assert s[0..] == s;
    assert "0Mi"[..1] == "0" && "0Mi"[1..] == "Mi";
  }

  /** Both alternatives of `^([1-9][0-9]*|[0-9]+m)$`: "4" and "500m" are CPU quantities, "04" is not. */
  lemma CpuQuantityExamples()
    ensures CpuQuantity("4") && CpuQuantity("500m") && !CpuQuantity("04") && !CpuQuantity("m")
  {
    assert "500m"[..3] == "500";
    assert "04"[..1] == "0";
  }
}
