/**
  The version order of the skill index as it reads in the texts of the versions: which of two versions
  comes first, and which one is resolved as the latest.
*/
module SkillOrder {
  import opened Wrappers
  import opened Ordering
  import opened SkillVersions
  import opened SkillIndex

  // ----- splitting a version -----

  function Join(tokens: seq<string>, separators: string): string
    requires |tokens| == |separators| + 1
  {
    if separators == [] then tokens[0]
    else tokens[0] + [separators[0]] + Join(tokens[1..], separators[1..])
  }

  function SeparatorsOf(version: string): string {
    if version == [] then []
    else (if version[0] in ".-+_" then [version[0]] else []) + SeparatorsOf(version[1..])
  }

  lemma JoinFirst(c: char, tokens: seq<string>, separators: string)
    requires |tokens| == |separators| + 1
    ensures Join([[c] + tokens[0]] + tokens[1..], separators) == [c] + Join(tokens, separators)
  {
    assert ([[c] + tokens[0]] + tokens[1..])[1..] == tokens[1..];
  }

  /** The tokens hold no separator, and with the separators between them they are the version again. */
  lemma {:induction false} TokensSplit(version: string)
    ensures |Tokens(version)| == |SeparatorsOf(version)| + 1
    ensures forall i, c :: 0 <= i < |Tokens(version)| && c in Tokens(version)[i] ==> c !in ".-+_"
    ensures forall c :: c in SeparatorsOf(version) ==> c in ".-+_"
    ensures Join(Tokens(version), SeparatorsOf(version)) == version
  {
    if version != [] {
      TokensSplit(version[1..]);
      var c, rest, separators := version[0], Tokens(version[1..]), SeparatorsOf(version[1..]);
      assert Separator(c) <==> c in ".-+_";
      assert version == [c] + version[1..];
      if Separator(c) {
        assert Tokens(version)[1..] == rest && ([c] + separators)[1..] == separators;
      } else {
        JoinFirst(c, rest, separators);
        assert [] + separators == separators;
      }
    }
  }

  // ----- numerals -----

  function Digit(d: nat): char
    requires d < 10
  {
    '0' + d as char
  }

  /** A number in decimal notation. */
  function Write(n: nat): (text: string)
    ensures text != []
  {
    if n < 10 then [Digit(n)] else Write(n / 10) + [Digit(n % 10)]
  }

  function Zeros(z: nat): string {
    seq(z, i => '0')
  }

  /** `token` is a numeral for `n`, with any number of leading zeros. */
  ghost predicate Numeral(token: string, n: nat) {
    exists z: nat :: token == Zeros(z) + Write(n)
  }

  ghost predicate AnyNumeral(token: string) {
    exists n: nat :: Numeral(token, n)
  }

  lemma DecimalAppend(token: string, d: nat)
    requires d < 10 && forall i :: 0 <= i < |token| ==> IsDigit(token[i])
    ensures IsNumber(token + [Digit(d)]) && Decimal(token + [Digit(d)]) == 10 * Decimal(token) + d
  {
    assert (token + [Digit(d)])[..|token|] == token;
  }

  lemma {:induction false} DecimalOfWrite(z: nat, n: nat)
    ensures IsNumber(Zeros(z) + Write(n)) && Decimal(Zeros(z) + Write(n)) == n
    decreases n
  {
    if n < 10 {
      DecimalOfZeros(z);
      DecimalAppend(Zeros(z), n);
    } else {
      DecimalOfWrite(z, n / 10);
      DecimalAppend(Zeros(z) + Write(n / 10), n % 10);
      assert Zeros(z) + Write(n) == Zeros(z) + Write(n / 10) + [Digit(n % 10)];
    }
  }

  lemma {:induction false} DecimalOfZeros(z: nat)
    ensures Decimal(Zeros(z)) == 0
  {
    if z > 0 {
      DecimalOfZeros(z - 1);
      assert Zeros(z)[..z - 1] == Zeros(z - 1);
    }
  }

  lemma {:induction false} ZeroIsZeros(token: string)
    requires (forall i :: 0 <= i < |token| ==> IsDigit(token[i])) && Decimal(token) == 0
    ensures token == Zeros(|token|)
  {
    if token != [] {
      var n := |token| - 1;
      assert IsDigit(token[n]);
      ZeroIsZeros(token[..n]);
      assert token == token[..n] + [token[n]];
    }
  }

  lemma LastDigit(token: string) returns (d: nat)
    requires IsNumber(token)
    ensures d < 10 && token == token[..|token| - 1] + [Digit(d)]
    ensures var rest := token[..|token| - 1]; forall i :: 0 <= i < |rest| ==> IsDigit(rest[i])
    ensures Decimal(token) == 10 * Decimal(token[..|token| - 1]) + d
  {
    var n := |token| - 1;
    assert IsDigit(token[n]);
    d := token[n] as int - '0' as int;
    assert Digit(d) == token[n];
  }

  lemma WriteLonger(n: nat, d: nat)
    requires n > 0 && d < 10
    ensures Write(10 * n + d) == Write(n) + [Digit(d)]
  {
    assert (10 * n + d) / 10 == n && (10 * n + d) % 10 == d;
  }

  lemma {:induction false} NumberIsNumeral(token: string)
    requires IsNumber(token)
    ensures Numeral(token, Decimal(token))
  {
    var d := LastDigit(token);
    var rest := token[..|token| - 1];
    if Decimal(rest) == 0 {
      ZeroIsZeros(rest);
      assert token == Zeros(|rest|) + Write(d);
    } else {
      NumberIsNumeral(rest);
      var z: nat :| rest == Zeros(z) + Write(Decimal(rest));
      WriteLonger(Decimal(rest), d);
      assert token == Zeros(z) + Write(Decimal(token));
    }
  }

  /** The digit tests and the conversion of `_version_key` read exactly the numerals. */
  lemma NumeralIff(token: string, n: nat)
    ensures Numeral(token, n) <==> IsNumber(token) && Decimal(token) == n
  {
    if z: nat :| token == Zeros(z) + Write(n) { DecimalOfWrite(z, n); }
    if IsNumber(token) { NumberIsNumeral(token); }
  }

  // ----- the order of versions -----

  /** The first difference decides by character code, and a proper prefix comes first. */
  ghost predicate TextBefore(s: string, t: string) {
    exists k: nat :: k <= |s| && k < |t| && s[..k] == t[..k] && (k == |s| || s[k] < t[k])
  }

  lemma TextLessIff(s: string, t: string)
    ensures TextLess(s, t) <==> TextBefore(s, t)
  {
    LexIff(s, t, CharLess);
    if k: nat :| LexAt(s, t, CharLess, k) { assert k == |s| || s[k] < t[k]; }
    if k: nat :| k <= |s| && k < |t| && s[..k] == t[..k] && (k == |s| || s[k] < t[k]) {
      assert LexAt(s, t, CharLess, k);
    }
  }

  /** Two numerals for one number count as the same token. */
  ghost predicate SameToken(s: string, t: string) {
    s == t || exists n: nat :: Numeral(s, n) && Numeral(t, n)
  }

  /** A smaller number first, a number before a word, and words by their text. */
  ghost predicate TokenBefore(s: string, t: string) {
    || (exists n: nat, m: nat :: Numeral(s, n) && Numeral(t, m) && n < m)
    || (AnyNumeral(s) && !AnyNumeral(t))
    || (!AnyNumeral(s) && !AnyNumeral(t) && TextBefore(s, t))
  }

  /** At the first place where the tokens differ the earlier version has the earlier token, or has ended. */
  ghost predicate TokensBefore(s: seq<string>, t: seq<string>) {
    exists k: nat :: DifferAt(s, t, k)
  }

  ghost predicate DifferAt(s: seq<string>, t: seq<string>, k: nat) {
    && k <= |s| && k < |t| && (forall i :: 0 <= i < k ==> SameToken(s[i], t[i]))
    && (k == |s| || TokenBefore(s[k], t[k]))
  }

  lemma AnyNumeralIff(token: string)
    ensures AnyNumeral(token) <==> IsNumber(token)
  {
    if n: nat :| Numeral(token, n) { NumeralIff(token, n); }
    if IsNumber(token) { NumberIsNumeral(token); }
  }

  lemma SamePart(s: string, t: string)
    ensures PartOf(s) == PartOf(t) <==> SameToken(s, t)
  {
    if n: nat :| Numeral(s, n) && Numeral(t, n) {
      NumeralIff(s, n);
      NumeralIff(t, n);
    }
    if IsNumber(s) && IsNumber(t) && Decimal(s) == Decimal(t) {
      NumberIsNumeral(s);
      NumberIsNumeral(t);
    }
  }

  lemma PartBefore(s: string, t: string)
    ensures PartLess(PartOf(s), PartOf(t)) <==> TokenBefore(s, t)
  {
    AnyNumeralIff(s);
    AnyNumeralIff(t);
    TextLessIff(s, t);
    if n: nat, m: nat :| Numeral(s, n) && Numeral(t, m) && n < m {
      NumeralIff(s, n);
      NumeralIff(t, m);
    }
    if IsNumber(s) && IsNumber(t) {
      NumberIsNumeral(s);
      NumberIsNumeral(t);
    }
  }

  lemma {:induction false} PartAt(tokens: seq<string>)
    ensures |Parts(tokens)| == |tokens|
    ensures forall i :: 0 <= i < |tokens| ==> Parts(tokens)[i] == PartOf(tokens[i])
  {
    if tokens != [] { PartAt(tokens[..|tokens| - 1]); }
  }

  lemma DifferIsLex(s: seq<string>, t: seq<string>, k: nat)
    ensures DifferAt(s, t, k) <==> LexAt(Parts(s), Parts(t), PartLess, k)
  {
    PartAt(s);
    PartAt(t);
    if k <= |s| && k < |t| {
      forall i | 0 <= i < k ensures Parts(s)[i] == Parts(t)[i] <==> SameToken(s[i], t[i]) { SamePart(s[i], t[i]); }
      if k < |s| {
        PartBefore(s[k], t[k]);
        TextIsTotal();
      }
      var a, b := Parts(s)[..k], Parts(t)[..k];
      assert (forall i :: 0 <= i < k ==> Parts(s)[i] == Parts(t)[i]) ==> a == b;
      assert a == b ==> forall i :: 0 <= i < k ==> a[i] == b[i];
      assert forall i :: 0 <= i < k ==> a[i] == Parts(s)[i] && b[i] == Parts(t)[i];
    }
  }

  /** The order of the index, read off the texts of two versions. */
  lemma VersionLessIff(x: SkillSpec, y: SkillSpec)
    ensures VersionLess(x, y) <==> TokensBefore(Tokens(x.version), Tokens(y.version))
  {
    var s, t := Tokens(x.version), Tokens(y.version);
    LexIff(Parts(s), Parts(t), PartLess);
    forall k: nat ensures DifferAt(s, t, k) <==> LexAt(Parts(s), Parts(t), PartLess, k) { DifferIsLex(s, t, k); }
  }

  lemma LessIsStrict(x: SkillSpec, y: SkillSpec)
    requires VersionLess(x, y)
    ensures !VersionLess(y, x) && x.version != y.version
  {
    KeysAreTotal();
  }

  /** Two versions that agree up to a place where both have numbers: the smaller number comes first. */
  lemma NumberDecides(x: SkillSpec, y: SkillSpec, k: nat, n: nat, m: nat)
    requires
      var s, t := Tokens(x.version), Tokens(y.version);
      && k < |s| && k < |t| && (forall i :: 0 <= i < k ==> SameToken(s[i], t[i]))
      && Numeral(s[k], n) && Numeral(t[k], m)
    ensures n < m ==> VersionLess(x, y) && !VersionLess(y, x)
    ensures n > m ==> VersionLess(y, x) && !VersionLess(x, y)
  {
    var s, t := Tokens(x.version), Tokens(y.version);
    if n < m {
      assert DifferAt(s, t, k);
      VersionLessIff(x, y);
      LessIsStrict(x, y);
    } else if n > m {
      forall i | 0 <= i < k ensures SameToken(t[i], s[i]) { assert SameToken(s[i], t[i]); }
      assert DifferAt(t, s, k);
      VersionLessIff(y, x);
      LessIsStrict(y, x);
    }
  }

  // ----- which version is the latest -----

  /** What a history registered last under a name and a version, by its place in the history. */
  ghost predicate LastAt(history: seq<SkillSpec>, name: string, version: string, i: nat) {
    && i < |history| && history[i].name == name && history[i].version == version
    && forall j :: i < j < |history| ==> !(history[j].name == name && history[j].version == version)
  }

  lemma {:induction false} LastRegisteredAt(history: seq<SkillSpec>, name: string, version: string, i: nat)
    requires LastAt(history, name, version, i)
    ensures LastRegistered(history, name, version) == Some(history[i])
  {
    if i < |history| - 1 { LastRegisteredAt(history[..|history| - 1], name, version, i); }
  }

  /** `resolve(name)` gives a registered spec, and no registered version of the name comes after it. */
  lemma LatestIsNewest(history: seq<SkillSpec>, x: SkillSpec)
    requires x in history
    ensures
      var latest := Latest(Built(history), x.name);
      && latest.Some? && latest.value in history && latest.value.name == x.name
      && !TokensBefore(Tokens(latest.value.version), Tokens(x.version))
  {
    LatestIsMaximum(history, x);
    var latest := Latest(Built(history), x.name).value;
    VersionLessIff(latest, x);
    assert latest in VersionsOf(Built(history), x.name);
    BuiltHolds(history, x.name, latest);
    LastRegisteredIs(history, x.name, latest.version);
  }

  /** A registration that no earlier one comes after is the latest from then on, also among equal versions. */
  lemma NewestWins(history: seq<SkillSpec>, x: SkillSpec)
    requires forall y :: y in history && y.name == x.name ==> !TokensBefore(Tokens(x.version), Tokens(y.version))
    ensures Latest(Built(history + [x]), x.name) == Some(x)
  {
    var versions := VersionsOf(Built(history), x.name);
    var kept := Filter(versions, OtherThan(x.version));
    var sorted := StableSort(kept, VersionLess);
    BuiltAppend(history, x);
    assert (kept + [x])[..|kept|] == kept;
    assert RegisterIn(versions, x) == Insert(sorted, x, VersionLess);
    if sorted != [] {
      var y := sorted[|sorted| - 1];
      StableSortElements(kept, VersionLess);
      assert y in multiset(sorted);
      FilterIn(versions, OtherThan(x.version));
      BuiltHolds(history, x.name, y);
      LastRegisteredIs(history, x.name, y.version);
      VersionLessIff(x, y);
    }
  }

  /** Of two versions the later one is resolved, whichever is registered first. */
  lemma LaterWins(x: SkillSpec, y: SkillSpec)
    requires x.name == y.name && TokensBefore(Tokens(x.version), Tokens(y.version))
    ensures Latest(Built([x, y]), x.name) == Some(y) && Latest(Built([y, x]), x.name) == Some(y)
  {
    VersionLessIff(x, y);
    LessIsStrict(x, y);
    BuiltPair(x, y);
    BuiltPair(y, x);
  }

  lemma TwoTokens(c: char, rest: string)
    requires !Separator(c) && forall d :: d in rest ==> !Separator(d)
    ensures Tokens([c] + "." + rest) == [[c], rest]
  {
    OneToken(rest);
    var version, tail := [c] + "." + rest, "." + rest;
    assert tail[0] == '.' && tail[1..] == rest;
    assert Tokens(tail) == [""] + [rest];
    assert version[0] == c && version[1..] == tail;
    assert Tokens(version) == [[c] + ""] + ([""] + [rest])[1..];
    assert [c] + "" == [c] && ([""] + [rest])[1..] == [rest];
  }

  lemma {:induction false} OneToken(word: string)
    requires forall d :: d in word ==> !Separator(d)
    ensures Tokens(word) == [word]
  {
    if word != [] {
      assert word[0] in word && forall d :: d in word[1..] ==> d in word;
      OneToken(word[1..]);
      assert word == [word[0]] + word[1..];
    }
  }

  lemma SmallNumeral(d: nat)
    requires d < 10
    ensures Numeral([Digit(d)], d)
  {
    assert [Digit(d)] == Zeros(0) + Write(d);
  }

  lemma NumeralTen()
    ensures Numeral("10", 10)
  {
    assert Write(10) == Write(1) + [Digit(0)];
    assert "10" == Zeros(0) + Write(10);
  }

  /** 1.10 is resolved and not 1.9, whichever is registered first. */
  lemma TenAfterNineWitness(name: string)
    ensures
      var nine, ten := SkillSpec(name, "1.9", [], false, ""), SkillSpec(name, "1.10", [], false, "");
      Latest(Built([nine, ten]), name) == Some(ten) && Latest(Built([ten, nine]), name) == Some(ten)
  {
    TwoTokens('1', "9");
    TwoTokens('1', "10");
    assert "1.9" == ['1'] + "." + "9" && "1.10" == ['1'] + "." + "10";
    SmallNumeral(9);
    NumeralTen();
    assert [Digit(9)] == "9";
    assert DifferAt(["1", "9"], ["1", "10"], 1);
    LaterWins(SkillSpec(name, "1.9", [], false, ""), SkillSpec(name, "1.10", [], false, ""));
  }

  /** 2.0 is resolved and not 1.0, whichever is registered first. */
  lemma TwoAfterOneWitness(name: string)
    ensures
      var one, two := SkillSpec(name, "1.0", [], false, ""), SkillSpec(name, "2.0", [], false, "");
      Latest(Built([one, two]), name) == Some(two) && Latest(Built([two, one]), name) == Some(two)
  {
    TwoTokens('1', "0");
    TwoTokens('2', "0");
    assert "1.0" == ['1'] + "." + "0" && "2.0" == ['2'] + "." + "0";
    SmallNumeral(1);
    SmallNumeral(2);
    assert [Digit(1)] == "1" && [Digit(2)] == "2";
    assert DifferAt(["1", "0"], ["2", "0"], 0);
    LaterWins(SkillSpec(name, "1.0", [], false, ""), SkillSpec(name, "2.0", [], false, ""));
  }
}
