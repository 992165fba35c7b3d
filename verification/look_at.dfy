/**
 * The console command `lookAtNearest` issues: turn the actor to face the
 * nearest entity within a radius, optionally restricted to some families.
 * Only the string is modelled; the actor's selector string is a parameter.
 */
module LookAt {

  /** The default search radius. */
  const DefaultRadius: nat := 10

  /** The default family list. */
  const DefaultFamily: seq<string> := ["mob"]

  /** `parts` joined with `sep` between neighbours, as a list join does. */
  function Join(parts: seq<string>, sep: string): (r: string)
    ensures parts == [] ==> r == ""
    ensures parts != [] ==> parts[0] <= r
  {
    if |parts| == 0 then ""
    else if |parts| == 1 then parts[0]
    else parts[0] + sep + Join(parts[1..], sep)
  }

  /** `s` cut at every occurrence of `sep`, as a string split does. */
  function Split(s: string, sep: char): (r: seq<string>)
    ensures |r| >= 1
  {
    if s == [] then [""]
    else
      var rest := Split(s[1..], sep);
      if s[0] == sep then [""] + rest
      else [[s[0]] + rest[0]] + rest[1..]
  }

  /** One `family=<t>` term per family, in order. */
  function FamilyTerms(family: seq<string>): seq<string> {
    seq(|family|, i requires 0 <= i < |family| => "family=" + family[i])
  }

  /** The comma-joined family terms. */
  function FamilyFilter(family: seq<string>): string {
    Join(FamilyTerms(family), ",")
  }

  /** The decimal digit for `d`. */
  function Digit(d: nat): char
    requires d < 10
  {
    "0123456789"[d]
  }

  /** The decimal rendering of `n`, as a number is written into a template string. */
  function Decimal(n: nat): (s: string)
    ensures |s| >= 1
    ensures forall i :: 0 <= i < |s| ==> '0' <= s[i] <= '9'
    ensures s[0] == '0' ==> n == 0
  {
    if n < 10 then [Digit(n)] else Decimal(n / 10) + [Digit(n % 10)]
  }

  /** The value of a string of decimal digits. */
  function DecimalValue(s: string): nat
    requires forall i :: 0 <= i < |s| ==> '0' <= s[i] <= '9'
  {
    if s == [] then 0 else DecimalValue(s[..|s| - 1]) * 10 + (s[|s| - 1] - '0') as nat
  }

  /** The command up to and including the radius. */
  function Head(selector: string, radius: nat): string {
    "execute at " + selector + " as " + selector + " run tp @s ~~~ facing @e[c=1,r=" + Decimal(radius)
  }

  /** The command `lookAtNearest` runs for an actor whose selector is `selector`. */
  function Command(selector: string, radius: nat, family: seq<string>): string {
    var typeFamily := FamilyFilter(family);
    Head(selector, radius) + (if typeFamily != "" then "," + typeFamily else "") + "]"
  }

  /** The joined family terms are empty exactly when the family list is. */
  lemma FamilyFilterEmptyIff(family: seq<string>)
    ensures FamilyFilter(family) == "" <==> family == []
  {
  }

  /**
   * The command's shape: with no family there is no `,family=` segment and
   * no trailing comma; otherwise a comma and the joined terms follow the radius.
   */
  lemma CommandShape(selector: string, radius: nat, family: seq<string>)
    ensures family == [] ==> Command(selector, radius, family) == Head(selector, radius) + "]"
    ensures family != [] ==>
      Command(selector, radius, family) == Head(selector, radius) + "," + FamilyFilter(family) + "]"
  {
  }

  /** Splitting `a + rest` where `a` holds no separator extends the first piece of `rest`. */
  lemma {:induction false} SplitPrefix(a: string, rest: string, sep: char)
    requires forall i :: 0 <= i < |a| ==> a[i] != sep
    ensures Split(a + rest, sep) == [a + Split(rest, sep)[0]] + Split(rest, sep)[1..]
  {
    if a != [] {
      assert (a + rest)[1..] == a[1..] + rest;
      SplitPrefix(a[1..], rest, sep);
      assert [a[0]] + (a[1..] + Split(rest, sep)[0]) == a + Split(rest, sep)[0];
    } else {
      assert a + rest == rest;
      assert a + Split(rest, sep)[0] == Split(rest, sep)[0];
      assert [Split(rest, sep)[0]] + Split(rest, sep)[1..] == Split(rest, sep);
    }
  }

  /** A string without the separator splits into itself alone. */
  lemma SplitNoSep(a: string, sep: char)
    requires forall i :: 0 <= i < |a| ==> a[i] != sep
    ensures Split(a, sep) == [a]
  {
    SplitPrefix(a, "", sep);
    assert a + "" == a;
  }

  /** Splitting a join of separator-free, non-empty list gives the list back. */
  lemma {:induction false} SplitJoin(parts: seq<string>, sep: char)
    requires parts != []
    requires forall k, i :: 0 <= k < |parts| && 0 <= i < |parts[k]| ==> parts[k][i] != sep
    ensures Split(Join(parts, [sep]), sep) == parts
  {
    if |parts| == 1 {
      SplitNoSep(parts[0], sep);
    } else {
      var tail := Join(parts[1..], [sep]);
      SplitJoin(parts[1..], sep);
      assert parts[0] + [sep] + tail == parts[0] + ([sep] + tail);
      SplitPrefix(parts[0], [sep] + tail, sep);
      assert ([sep] + tail)[1..] == tail;
      assert Split([sep] + tail, sep) == [""] + parts[1..];
      assert parts[0] + "" == parts[0];
      assert [parts[0]] + parts[1..] == parts;
    }
  }

  /**
   * The family segment is exactly one `family=<t>` term per entry, comma
   * separated and in order, when no entry itself holds a comma.
   */
  lemma FamilyFilterTerms(family: seq<string>)
    requires family != []
    requires forall k, i :: 0 <= k < |family| && 0 <= i < |family[k]| ==> family[k][i] != ','
    ensures Split(FamilyFilter(family), ',') == FamilyTerms(family)
  {
    var terms := FamilyTerms(family);
    forall k, i | 0 <= k < |terms| && 0 <= i < |terms[k]|
      ensures terms[k][i] != ','
    {
      if i >= 7 {
        assert terms[k][i] == family[k][i - 7];
      }
    }
    SplitJoin(terms, ',');
  }

  /** The decimal rendering reads back as the same number. */
  lemma {:induction false} DecimalRoundTrip(n: nat)
    ensures DecimalValue(Decimal(n)) == n
  {
    if n >= 10 {
      var s := Decimal(n);
      DecimalRoundTrip(n / 10);
      assert s[..|s| - 1] == Decimal(n / 10);
    }
  }

  /** The command built with the default radius and family. */
  lemma DefaultCommand(selector: string)
    ensures Command(selector, DefaultRadius, DefaultFamily) ==
      "execute at " + selector + " as " + selector + " run tp @s ~~~ facing @e[c=1,r=10,family=mob]"
  {
  }
}
