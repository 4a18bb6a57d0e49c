/** Sharing adb: the device-list relay and its wire format (server/crates/dialf/src/share/adb.rs).
    Text is ASCII, one character a byte. */
module AdbShare {
  import opened Seqs

  // ---- lines and words ---------------------------------------------------------------------------

  const NL := '\n'
  const CR := '\r'

  function LineEnd(s: string): (n: nat)
    ensures n <= |s| && NL !in s[..n]
    ensures n < |s| ==> s[n] == NL
  {
    if s == [] || s[0] == NL then 0
    else
      var n := 1 + LineEnd(s[1..]);
      assert s[..n] == [s[0]] + s[1..][..n - 1];
      n
  }

  /** A terminated line also gives up one carriage return. */
  function StripCr(line: string): string {
    if line != [] && line[|line| - 1] == CR then line[..|line| - 1] else line
  }

  function Lines(s: string): seq<string> {
    if s == [] then []
    else
      var n := LineEnd(s);
      if n == |s| then [s] else [StripCr(s[..n])] + Lines(s[n + 1..])
  }

  /** A line ends at a newline, with one carriage return before it if there is one, and the last line may do
      without. Every text is made of such lines. */
  lemma LinesMean(line: string, rest: string)
    requires NL !in line
    ensures Lines([]) == [] && (line != [] ==> Lines(line) == [line])
    ensures Lines(line + ['\r', '\n'] + rest) == [line] + Lines(rest)
    ensures (line != [] ==> line[|line| - 1] != '\r') ==> Lines(line + ['\n'] + rest) == [line] + Lines(rest)
  {
    assert line + ['\r', '\n'] + rest == (line + [CR]) + [NL] + rest;
    LinesOfLine(line + [CR], rest);
    LinesOfLine(line, rest);
    assert LineEnd(line) == |line|;
  }

  predicate White(c: char) { c == ' ' || '\t' <= c <= '\r' }

  function WordEnd(s: string): (n: nat)
    ensures n <= |s|
    ensures s != [] && !White(s[0]) ==> n > 0
  {
    if s == [] || White(s[0]) then 0 else 1 + WordEnd(s[1..])
  }

  /** The words of a line, in order. */
  function Tokens(s: string): seq<string>
    decreases |s|
  {
    if s == [] then []
    else if White(s[0]) then Tokens(s[1..])
    else [s[..WordEnd(s)]] + Tokens(s[WordEnd(s)..])
  }

  lemma {:induction false} WordEndAt(word: string, rest: string)
    requires (forall i :: 0 <= i < |word| ==> !White(word[i])) && (rest == [] || White(rest[0]))
    ensures WordEnd(word + rest) == |word|
  {
    if word == [] {
      assert word + rest == rest;
    } else {
      assert (word + rest)[1..] == word[1..] + rest;
      WordEndAt(word[1..], rest);
    }
  }

  /** Words are what stands between spaces, tabs and the other ASCII blanks, however many. */
  lemma TokensMean(word: string, blank: char, rest: string)
    requires blank == ' ' || 9 <= blank as int <= 13
    requires word != [] && forall i :: 0 <= i < |word| ==> word[i] != ' ' && !(9 <= word[i] as int <= 13)
    ensures Tokens([]) == [] && Tokens([blank] + rest) == Tokens(rest)
    ensures Tokens(word) == [word] && Tokens(word + [blank] + rest) == [word] + Tokens(rest)
  {
    assert ([blank] + rest)[1..] == rest;
    WordEndAt(word, []);
    assert word + [] == word && word[..|word|] == word && word[|word|..] == [];
    var s := word + ([blank] + rest);
    WordEndAt(word, [blank] + rest);
    assert s == word + [blank] + rest && s[0] == word[0];
    assert s[..|word|] == word && s[|word|..] == [blank] + rest;
  }

  lemma {:induction false} WordEndOfTrailing(s: string, c: char)
    requires White(c)
    ensures WordEnd(s + [c]) == WordEnd(s)
  {
    if s != [] {
      assert (s + [c])[1..] == s[1..] + [c];
      WordEndOfTrailing(s[1..], c);
    }
  }

  lemma {:induction false} TokensOfTrailing(s: string, c: char)
    requires White(c)
    ensures Tokens(s + [c]) == Tokens(s)
    decreases |s|
  {
    if s == [] {
      assert [c][1..] == [] && s + [c] == [c];
    } else if White(s[0]) {
      assert (s + [c])[1..] == s[1..] + [c];
      TokensOfTrailing(s[1..], c);
    } else {
      var n := WordEnd(s);
      WordEndOfTrailing(s, c);
      assert (s + [c])[..n] == s[..n] && (s + [c])[n..] == s[n..] + [c];
      TokensOfTrailing(s[n..], c);
    }
  }

  lemma TokensOfStripped(line: string)
    ensures Tokens(StripCr(line)) == Tokens(line)
  {
    if StripCr(line) != line {
      assert line == line[..|line| - 1] + [CR];
      TokensOfTrailing(line[..|line| - 1], CR);
    }
  }

  // ---- device lists ------------------------------------------------------------------------------

  datatype Targets = All | Only(serials: seq<string>)

  predicate Allows(t: Targets, serial: string) { t.All? || serial in t.serials }

  datatype Device = Device(serial: string, state: string, model: Option<string>)

  const MODEL := "model:"

  function Unscore(s: string): string {
    if s == [] then [] else [if s[0] == '_' then ' ' else s[0]] + Unscore(s[1..])
  }

  function ModelOf(words: seq<string>): Option<string> {
    if words == [] then None
    else if MODEL <= words[0] then Some(Unscore(words[0][|MODEL|..]))
    else ModelOf(words[1..])
  }

  function DeviceOf(words: seq<string>): Device
    requires words != []
  {
    Device(words[0], if |words| > 1 then words[1] else "unknown", if |words| > 2 then ModelOf(words[2..]) else None)
  }

  lemma {:induction false} UnscoreAt(s: string, i: nat)
    ensures |Unscore(s)| == |s|
    ensures i < |s| ==> Unscore(s)[i] == if s[i] == '_' then ' ' else s[i]
  {
    if s != [] {
      UnscoreAt(s[1..], if i == 0 then 0 else i - 1);
    }
  }

  /** The model is what follows `model:` in the first word that begins so. */
  lemma {:induction false} ModelMeans(words: seq<string>, i: nat)
    requires i < |words| && "model:" <= words[i] && forall j :: 0 <= j < i ==> !("model:" <= words[j])
    ensures ModelOf(words) == Some(Unscore(words[i][6..]))
  {
    if i > 0 {
      ModelMeans(words[1..], i - 1);
    }
  }

  lemma {:induction false} NoModel(words: seq<string>)
    requires forall j :: 0 <= j < |words| ==> !("model:" <= words[j])
    ensures ModelOf(words) == None
  {
    if words != [] {
      NoModel(words[1..]);
    }
  }

  /** A device's line: its serial, its state or `unknown`, and from the third word on its model. */
  lemma DeviceMeans(words: seq<string>)
    requires words != []
    ensures var d := DeviceOf(words);
      && d.serial == words[0] && d.state == (if |words| == 1 then "unknown" else words[1])
      && (|words| > 2 ==> d.model == ModelOf(words[2..])) && (|words| <= 2 ==> d.model == None)
  {
  }

  function DevicesOf(lines: seq<string>): seq<Device> {
    if lines == [] then []
    else if Tokens(lines[0]) == [] then DevicesOf(lines[1..])
    else [DeviceOf(Tokens(lines[0]))] + DevicesOf(lines[1..])
  }

  function ParseDeviceList(payload: string): seq<Device> { DevicesOf(Lines(payload)) }

  /** The devices of a list that are shared. */
  function Shared(devices: seq<Device>, t: Targets): seq<Device> {
    if devices == [] then []
    else if Allows(t, devices[0].serial) then [devices[0]] + Shared(devices[1..], t)
    else Shared(devices[1..], t)
  }

  /** Shared are exactly the devices whose serial is on the list, as often and in the order they come. */
  lemma {:induction false} SharedExactly(devices: seq<Device>, serials: seq<string>, d: Device)
    ensures multiset(Shared(devices, Only(serials)))[d] ==
      if exists i :: 0 <= i < |serials| && serials[i] == d.serial then multiset(devices)[d] else 0
  {
    if devices != [] {
      SharedExactly(devices[1..], serials, d);
      assert devices == [devices[0]] + devices[1..];
    }
  }

  lemma {:induction false} SharedConcat(a: seq<Device>, b: seq<Device>, t: Targets)
    ensures Shared(a + b, t) == Shared(a, t) + Shared(b, t)
  {
    if a == [] {
      assert a + b == b;
    } else {
      SharedConcat(a[1..], b, t);
      assert a + b == [a[0]] + (a[1..] + b) && a == [a[0]] + a[1..];
      SharedCons(a[0], a[1..] + b, t);
      SharedCons(a[0], a[1..], t);
      Associate([a[0]], Shared(a[1..], t), Shared(b, t));
    }
  }

  predicate KeepsLine(line: string, t: Targets) {
    Tokens(line) != [] && Tokens(line)[0] != [] && Allows(t, Tokens(line)[0])
  }

  function KeptLines(lines: seq<string>, t: Targets): string {
    if lines == [] then []
    else if KeepsLine(lines[0], t) then lines[0] + [NL] + KeptLines(lines[1..], t)
    else KeptLines(lines[1..], t)
  }

  function Filtered(payload: string, t: Targets): string {
    if t.All? then payload else KeptLines(Lines(payload), t)
  }

  method FilterDeviceList(payload: string, t: Targets) returns (out: string)
    ensures out == Filtered(payload, t)
  {
    if t.All? {
      return payload;
    }
    out := "";
    var lines := Lines(payload);
    for i := 0 to |lines|
      invariant out + KeptLines(lines[i..], t) == KeptLines(lines, t)
    {
      var words := Tokens(lines[i]);
      var serial := if words != [] then words[0] else "";
      assert lines[i..][1..] == lines[i + 1..];
      if serial != "" && Allows(t, serial) {
        Associate(out, lines[i] + [NL], KeptLines(lines[i + 1..], t));
        out := out + (lines[i] + [NL]);
      }
    }
    assert lines[|lines|..] == [];
  }

  lemma {:induction false} TokensAreWords(s: string)
    ensures forall w :: w in Tokens(s) ==> w != []
    decreases |s|
  {
    if s != [] {
      if White(s[0]) {
        TokensAreWords(s[1..]);
      } else {
        TokensAreWords(s[WordEnd(s)..]);
      }
    }
  }

  lemma {:induction false} LinesHaveNoNewline(s: string)
    ensures forall l :: l in Lines(s) ==> NL !in l
    decreases |s|
  {
    if s != [] && LineEnd(s) < |s| {
      LinesHaveNoNewline(s[LineEnd(s) + 1..]);
      assert StripCr(s[..LineEnd(s)]) <= s[..LineEnd(s)];
    } else {
      assert s[..|s|] == s;
    }
  }

  lemma {:induction false} LineEndAt(line: string, rest: string)
    requires NL !in line
    ensures LineEnd(line + [NL] + rest) == |line|
  {
    if line != [] {
      assert (line + [NL] + rest)[1..] == line[1..] + [NL] + rest;
      LineEndAt(line[1..], rest);
    }
  }

  lemma LinesOfLine(line: string, rest: string)
    requires NL !in line
    ensures Lines(line + [NL] + rest) == [StripCr(line)] + Lines(rest)
  {
    var s := line + [NL] + rest;
    LineEndAt(line, rest);
    assert s[..|line|] == line && s[|line| + 1..] == rest;
  }

  lemma DevicesCons(line: string, rest: seq<string>)
    requires Tokens(line) != []
    ensures DevicesOf([line] + rest) == [DeviceOf(Tokens(line))] + DevicesOf(rest)
  {
    assert ([line] + rest)[1..] == rest;
  }

  lemma {:induction false} ParseOfKept(lines: seq<string>, t: Targets)
    requires forall l :: l in lines ==> NL !in l
    ensures ParseDeviceList(KeptLines(lines, t)) == Shared(DevicesOf(lines), t)
  {
    if lines != [] {
      var line, rest := lines[0], lines[1..];
      ParseOfKept(rest, t);
      TokensAreWords(line);
      if Tokens(line) == [] {
        assert DevicesOf(lines) == DevicesOf(rest);
      } else {
        var d := DeviceOf(Tokens(line));
        assert DevicesOf(lines) == [d] + DevicesOf(rest);
        SharedCons(d, DevicesOf(rest), t);
        assert Tokens(line)[0] in Tokens(line);
        if KeepsLine(line, t) {
          LinesOfLine(line, KeptLines(rest, t));
          TokensOfStripped(line);
          DevicesCons(StripCr(line), Lines(KeptLines(rest, t)));
        }
      }
    }
  }

  lemma SharedCons(d: Device, rest: seq<Device>, t: Targets)
    ensures Shared([d] + rest, t) == if Allows(t, d.serial) then [d] + Shared(rest, t) else Shared(rest, t)
  {
    assert ([d] + rest)[1..] == rest;
  }

  lemma {:induction false} SharedOfAll(devices: seq<Device>)
    ensures Shared(devices, All) == devices
  {
    if devices != [] {
      SharedOfAll(devices[1..]);
    }
  }

  /** Filtering the text is filtering the devices: whatever the line ends, the blank lines and the
      spacing, the list that goes down parses to exactly the shared devices of the one that came. */
  lemma ParseOfFiltered(payload: string, t: Targets)
    ensures ParseDeviceList(Filtered(payload, t)) == Shared(ParseDeviceList(payload), t)
  {
    if t.All? {
      SharedOfAll(ParseDeviceList(payload));
    } else {
      LinesHaveNoNewline(payload);
      ParseOfKept(Lines(payload), t);
    }
  }

  // ---- how long a filtered list can be -----------------------------------------------------------

  lemma KeptCons(line: string, rest: seq<string>, t: Targets)
    ensures KeptLines([line] + rest, t) ==
      if KeepsLine(line, t) then line + [NL] + KeptLines(rest, t) else KeptLines(rest, t)
  {
    assert ([line] + rest)[1..] == rest;
  }

  ghost predicate NoLonger(kept: string, s: string) {
    && (|kept| <= |s| || kept == s + [NL])
    && (s != [] && s[|s| - 1] == NL ==> |kept| <= |s|)
  }

  /** Putting a line, kept or not, in front of what is no longer. */
  lemma NoLongerCons(line: string, kept: string, rest: string)
    requires NoLonger(kept, rest) && (rest == [] ==> kept == [])
    ensures NoLonger(kept, line + [NL] + rest) && NoLonger(StripCr(line) + [NL] + kept, line + [NL] + rest)
  {
    if rest == [] {
      assert line + [NL] + rest == line + [NL];
    }
  }

  lemma {:induction false} KeptLength(s: string, t: Targets)
    ensures NoLonger(KeptLines(Lines(s), t), s)
    decreases |s|
  {
    if s != [] {
      var n := LineEnd(s);
      if n == |s| {
        assert s[..n] == s;
        KeptCons(s, [], t);
        assert [s] + [] == [s];
      } else {
        KeptLength(s[n + 1..], t);
        KeptCons(StripCr(s[..n]), Lines(s[n + 1..]), t);
        NoLongerCons(s[..n], KeptLines(Lines(s[n + 1..]), t), s[n + 1..]);
        assert s == s[..n] + [NL] + s[n + 1..];
      }
    }
  }

  /** A filtered list is never more than one byte longer than the list it comes from, and only when
      that one lacks its last newline and loses nothing else. */
  lemma FilteredLength(payload: string, t: Targets)
    ensures |Filtered(payload, t)| > |payload| <==> Filtered(payload, t) == payload + [NL]
    ensures |Filtered(payload, t)| > |payload| ==> !t.All? && (payload == [] || payload[|payload| - 1] != NL)
  {
    KeptLength(payload, t);
  }

  /** No line end of the list gives up a carriage return. */
  predicate NoCrLf(s: string) { forall i :: 0 <= i < |s| - 1 ==> !CrLfAt(s, i) }

  predicate CrLfAt(s: string, i: nat)
    requires i + 1 < |s|
  {
    s[i] == CR && s[i + 1] == NL
  }

  predicate AllKept(lines: seq<string>, t: Targets) { forall l :: l in lines ==> KeepsLine(l, t) }

  /** The shape that grows: the last newline missing, every line kept, and no carriage return given up. */
  predicate Grows(s: string, t: Targets) {
    t.Only? && s != [] && s[|s| - 1] != NL && AllKept(Lines(s), t) && NoCrLf(s)
  }

  lemma {:induction false} NoNewlineBefore(s: string, i: nat)
    requires i < LineEnd(s)
    ensures s[i] != NL
  {
    if i > 0 {
      NoNewlineBefore(s[1..], i - 1);
    }
  }

  lemma NoCrLfCut(s: string, n: nat)
    requires n == LineEnd(s)
    ensures NoCrLf(s) <==> n == |s| || (StripCr(s[..n]) == s[..n] && NoCrLf(s[n + 1..]))
  {
    forall i | 0 <= i < n
      ensures s[i] != NL
    {
      NoNewlineBefore(s, i);
    }
    if n < |s| {
      var rest := s[n + 1..];
      assert n > 0 ==> (StripCr(s[..n]) == s[..n] <==> !CrLfAt(s, n - 1));
      assert forall i :: 0 <= i < |rest| - 1 ==> CrLfAt(rest, i) == CrLfAt(s, n + 1 + i);
      if StripCr(s[..n]) == s[..n] && NoCrLf(rest) {
        forall i | 0 <= i < |s| - 1
          ensures !CrLfAt(s, i)
        {
          if i > n {
            assert CrLfAt(rest, i - n - 1) == CrLfAt(s, i);
          }
        }
      }
    }
  }

  /** A list whose first line ends grows exactly when that line is kept as it is and the rest grows. */
  lemma GrowsCons(line: string, stripped: string, rest: string, kept: string, keeps: bool)
    requires NoLonger(kept, rest) && |stripped| <= |line|
    ensures (if keeps then stripped + [NL] + kept else kept) == line + [NL] + rest + [NL] <==>
            keeps && stripped == line && kept == rest + [NL]
  {
    var all, got := line + [NL] + rest + [NL], stripped + [NL] + kept;
    if keeps && got == all {
      assert |stripped| == |line|;
      assert got[..|line|] == stripped && all[..|line|] == line;
      assert got[|line| + 1..] == kept && all[|line| + 1..] == rest + [NL];
    }
  }

  lemma {:induction false} KeptWhole(s: string, t: Targets)
    requires t.Only? && s != [] && s[|s| - 1] != NL
    ensures KeptLines(Lines(s), t) == s + [NL] <==> AllKept(Lines(s), t) && NoCrLf(s)
    decreases |s|
  {
    var n := LineEnd(s);
    NoCrLfCut(s, n);
    if n == |s| {
      KeptCons(s, [], t);
      assert [s] + [] == [s];
    } else {
      var line, rest := s[..n], s[n + 1..];
      assert s == line + [NL] + rest;
      KeptWhole(rest, t);
      KeptLength(rest, t);
      KeptCons(StripCr(line), Lines(rest), t);
      GrowsCons(line, StripCr(line), rest, KeptLines(Lines(rest), t), KeepsLine(StripCr(line), t));
    }
  }

  /** Exactly which lists grow, by their one missing newline. */
  lemma FilteredGrows(payload: string, t: Targets)
    ensures Filtered(payload, t) == payload + [NL] <==> Grows(payload, t)
  {
    KeptLength(payload, t);
    if t.Only? && payload != [] && payload[|payload| - 1] != NL {
      KeptWhole(payload, t);
    }
  }

  // ---- messages on the wire ----------------------------------------------------------------------

  const MAX_FRAMED := 0xffff
  const ADB_CAP := 64 * 1024

  function HexDigit(d: nat): char
    requires d < 16
  {
    "0123456789abcdef"[d]
  }

  function Hex(n: nat): string {
    if n < 16 then [HexDigit(n)] else Hex(n / 16) + [HexDigit(n % 16)]
  }

  function LengthPrefix(n: nat): string {
    if |Hex(n)| < 4 then Repeat('0', 4 - |Hex(n)|) + Hex(n) else Hex(n)
  }

  function Frame(payload: string): string { LengthPrefix(|payload|) + payload }

  function DigitOf(c: char): Option<nat> {
    if '0' <= c <= '9' then Some((c as int) - ('0' as int))
    else if 'a' <= c <= 'f' then Some(10 + (c as int) - ('a' as int))
    else if 'A' <= c <= 'F' then Some(10 + (c as int) - ('A' as int))
    else None
  }

  function Digits(s: string): Option<nat> {
    if s == [] then Some(0)
    else
      var high, low := Digits(s[..|s| - 1]), DigitOf(s[|s| - 1]);
      if high.Some? && low.Some? then Some(16 * high.value + low.value) else None
  }

  /** A hexadecimal number as the library reads it: either case, and one plus sign in front. */
  function ParseHex(s: string): Option<nat> {
    var digits := if s != [] && s[0] == '+' then s[1..] else s;
    if digits == [] then None else Digits(digits)
  }

  function Pow16(k: nat): nat { if k == 0 then 1 else 16 * Pow16(k - 1) }

  lemma {:induction false} DigitsBound(s: string)
    ensures Digits(s).Some? ==> Digits(s).value < Pow16(|s|)
  {
    if s != [] {
      DigitsBound(s[..|s| - 1]);
    }
  }

  lemma DigitReadsBack(d: nat)
    requires d < 16
    ensures DigitOf(HexDigit(d)) == Some(d) && HexDigit(d) != '+'
  {
  }

  lemma DigitsSnoc(s: string, d: nat)
    requires Digits(s).Some? && d < 16
    ensures Digits(s + [HexDigit(d)]) == Some(16 * Digits(s).value + d)
  {
    DigitReadsBack(d);
    var t := s + [HexDigit(d)];
    assert t[..|t| - 1] == s && t[|t| - 1] == HexDigit(d);
  }

  lemma {:induction false} HexHasNoPlus(n: nat)
    ensures Hex(n) != [] && '+' !in Hex(n)
  {
    DigitReadsBack(n % 16);
    if n >= 16 {
      HexHasNoPlus(n / 16);
    }
  }

  lemma {:induction false} DigitsOfHex(n: nat)
    ensures Digits(Hex(n)) == Some(n)
  {
    if n < 16 {
      DigitsSnoc([], n);
      assert [] + [HexDigit(n)] == [HexDigit(n)];
    } else {
      DigitsOfHex(n / 16);
      DigitsSnoc(Hex(n / 16), n % 16);
    }
  }

  lemma {:induction false} HexFits(n: nat, k: nat)
    requires k > 0 && n < Pow16(k)
    ensures |Hex(n)| <= k
  {
    if n >= 16 {
      HexFits(n / 16, k - 1);
    }
  }

  lemma {:induction false} DigitsAfterZeros(zeros: nat, s: string)
    ensures Digits(Repeat('0', zeros) + s) == Digits(s)
  {
    var t := Repeat('0', zeros) + s;
    if s != [] {
      DigitsAfterZeros(zeros, s[..|s| - 1]);
      assert t[..|t| - 1] == Repeat('0', zeros) + s[..|s| - 1];
    } else if zeros > 0 {
      DigitsAfterZeros(zeros - 1, s);
      assert t[..|t| - 1] == Repeat('0', zeros - 1) + s;
    }
  }

  lemma PrefixReadsBack(n: nat)
    requires n <= MAX_FRAMED
    ensures |LengthPrefix(n)| == 4 && ParseHex(LengthPrefix(n)) == Some(n)
  {
    assert Pow16(4) == 0x10000 by {
      assert Pow16(2) == 256;
    }
    HexFits(n, 4);
    DigitsOfHex(n);
    HexHasNoPlus(n);
    if |Hex(n)| < 4 {
      DigitsAfterZeros(4 - |Hex(n)|, Hex(n));
    }
  }

  function LowerDigit(c: char): Option<nat> {
    if '0' <= c <= '9' then Some((c as int) - 48) else if 'a' <= c <= 'f' then Some((c as int) - 87) else None
  }

  /** The prefix is four lower-case hexadecimal digits, the highest first. */
  lemma PrefixDigits(n: nat)
    requires n <= 0xffff
    ensures var p := LengthPrefix(n);
      && |p| == 4 && (forall i :: 0 <= i < 4 ==> LowerDigit(p[i]).Some?)
      && n == 4096 * LowerDigit(p[0]).value + 256 * LowerDigit(p[1]).value + 16 * LowerDigit(p[2]).value
              + LowerDigit(p[3]).value
  {
    PrefixReadsBack(n);
    HexIsLower(n);
    FourDigits(LengthPrefix(n));
  }

  lemma FourDigits(p: string)
    requires |p| == 4 && forall i :: 0 <= i < 4 ==> LowerDigit(p[i]).Some?
    ensures ParseHex(p) == Some(4096 * LowerDigit(p[0]).value + 256 * LowerDigit(p[1]).value
                                + 16 * LowerDigit(p[2]).value + LowerDigit(p[3]).value)
  {
    assert p[..4] == p && p[..0] == [];
    DigitsTake(p, 0);
    DigitsTake(p, 1);
    DigitsTake(p, 2);
    DigitsTake(p, 3);
  }

  lemma DigitsTake(p: string, k: nat)
    requires k < |p| && LowerDigit(p[k]).Some? && Digits(p[..k]).Some?
    ensures Digits(p[..k + 1]) == Some(16 * Digits(p[..k]).value + LowerDigit(p[k]).value)
  {
    assert p[..k + 1][..k] == p[..k] && p[..k + 1][k] == p[k];
    LowerIsDigit(p[k]);
  }

  lemma LowerIsDigit(c: char)
    ensures LowerDigit(c).Some? ==> DigitOf(c) == LowerDigit(c) && c != '+'
  {
  }

  lemma {:induction false} HexIsLower(n: nat)
    ensures forall i :: 0 <= i < |Hex(n)| ==> LowerDigit(Hex(n)[i]).Some?
  {
    if n >= 16 {
      HexIsLower(n / 16);
    }
  }

  datatype Read = Failed | Message(payload: string, rest: string)

  /** The next message of a stream, if there is a whole well-formed one. */
  function NextMessage(s: string): (r: Read)
    ensures r.Message? ==> |r.rest| < |s|
  {
    if |s| < 4 then Failed
    else
      var len := ParseHex(s[..4]);
      if len.None? || len.value > ADB_CAP || |s| - 4 < len.value then Failed
      else Message(s[4..4 + len.value], s[4 + len.value..])
  }

  /** Four digits count no further than 65535: the cap on top of that never refuses anything. */
  lemma MessagesAreShort(s: string)
    requires |s| >= 4 && ParseHex(s[..4]).Some?
    ensures ParseHex(s[..4]).value <= MAX_FRAMED < ADB_CAP
  {
    var p := s[..4];
    DigitsBound(p);
    DigitsBound(p[1..]);
    assert Pow16(4) == 0x10000 && Pow16(3) == 0x1000 by {
      assert Pow16(2) == 256;
    }
  }

  /** A message comes back as it was written exactly when it is at most 65535 bytes long. */
  lemma FrameReadsBack(payload: string, rest: string)
    ensures NextMessage(Frame(payload) + rest) == Message(payload, rest) <==> |payload| <= MAX_FRAMED
  {
    var s := Frame(payload) + rest;
    if |payload| <= MAX_FRAMED {
      PrefixReadsBack(|payload|);
      var prefix := LengthPrefix(|payload|);
      assert s == prefix + (payload + rest);
      assert s[..4] == prefix;
      assert s[4..4 + |payload|] == payload && s[4 + |payload|..] == rest;
    } else if NextMessage(s).Message? {
      MessagesAreShort(s);
    }
  }

  /** Every message of a stream, up to the first that cannot be read. */
  function Messages(s: string): seq<string>
    decreases |s|
  {
    match NextMessage(s)
    case Failed => []
    case Message(payload, rest) => [payload] + Messages(rest)
  }

  function Frames(payloads: seq<string>): string {
    if payloads == [] then [] else Frame(payloads[0]) + Frames(payloads[1..])
  }

  predicate AllFit(payloads: seq<string>) {
    forall p :: p in payloads ==> |p| <= MAX_FRAMED
  }

  lemma {:induction false} MessagesFit(s: string)
    ensures AllFit(Messages(s))
    decreases |s|
  {
    var r := NextMessage(s);
    if r.Message? {
      MessagesAreShort(s);
      MessagesFit(r.rest);
    }
  }

  /** A stream of framed payloads reads back as those payloads exactly when each of them fits. */
  lemma {:induction false} FramesReadBack(payloads: seq<string>)
    ensures Messages(Frames(payloads)) == payloads <==> AllFit(payloads)
  {
    MessagesFit(Frames(payloads));
    if payloads != [] && AllFit(payloads) {
      var p, rest := payloads[0], payloads[1..];
      assert payloads == [p] + rest && p in payloads && AllFit(rest);
      FramesReadBack(rest);
      FrameReadsBack(p, Frames(rest));
      assert NextMessage(Frames(payloads)) == Message(p, Frames(rest));
    }
  }

  // ---- the relay ---------------------------------------------------------------------------------

  function FilteredAll(payloads: seq<string>, t: Targets): (r: seq<string>)
    ensures |r| == |payloads|
  {
    if payloads == [] then [] else [Filtered(payloads[0], t)] + FilteredAll(payloads[1..], t)
  }

  function ParsedAll(payloads: seq<string>): seq<seq<Device>> {
    if payloads == [] then [] else [ParseDeviceList(payloads[0])] + ParsedAll(payloads[1..])
  }

  function SharedAll(lists: seq<seq<Device>>, t: Targets): seq<seq<Device>> {
    if lists == [] then [] else [Shared(lists[0], t)] + SharedAll(lists[1..], t)
  }

  const OKAY := "OKAY"

  /** The lists a relay answers: all there are on a tracking stream, else the first. */
  function Answered(stream: string, streaming: bool): seq<string> {
    var all := Messages(stream);
    if streaming || |all| < 1 then all else all[..1]
  }

  /** Everything the relay sends down for what comes from upstream. */
  function Relayed(stream: string, t: Targets, streaming: bool): string {
    if |stream| < 4 then []
    else if stream[..4] != OKAY then stream
    else OKAY + Frames(FilteredAll(Answered(stream[4..], streaming), t))
  }

  /** One end of a connection: what is still to be read from it, and what was written to it. */
  class Connection {
    var unread: string
    var written: string

    constructor (incoming: string)
      ensures unread == incoming && written == []
    {
      unread, written := incoming, [];
    }

    /** Take exactly n bytes, or find the stream at its end. */
    method ReadExact(n: nat) returns (r: Option<string>)
      modifies this`unread
      ensures n <= |old(unread)| ==> r == Some(old(unread)[..n]) && unread == old(unread)[n..]
      ensures n > |old(unread)| ==> r == None && unread == []
    {
      if n > |unread| {
        unread := [];
        return None;
      }
      r := Some(unread[..n]);
      unread := unread[n..];
    }

    method ReadMessage() returns (r: Option<string>)
      modifies this`unread
      ensures var next := NextMessage(old(unread));
        if next.Message? then r == Some(next.payload) && unread == next.rest else r == None
    {
      ghost var s := unread;
      var prefix := ReadExact(4);
      if prefix.None? {
        return None;
      }
      var len := ParseHex(prefix.value);
      if len.None? || len.value > ADB_CAP {
        return None;
      }
      r := ReadExact(len.value);
      if r.Some? {
        assert s[4..][..len.value] == s[4..4 + len.value] && s[4..][len.value..] == s[4 + len.value..];
      }
    }

    method WriteMessage(payload: string)
      modifies this`written
      ensures written == old(written) + Frame(payload)
    {
      written := written + LengthPrefix(|payload|);
      Associate(old(written), LengthPrefix(|payload|), payload);
      written := written + payload;
    }
  }

  lemma MessagesCons(s: string)
    requires NextMessage(s).Message?
    ensures Messages(s) == [NextMessage(s).payload] + Messages(NextMessage(s).rest)
  {
  }

  lemma FramesCons(payload: string, rest: seq<string>, t: Targets)
    ensures Frames(FilteredAll([payload] + rest, t)) == Frame(Filtered(payload, t)) + Frames(FilteredAll(rest, t))
  {
    assert ([payload] + rest)[1..] == rest;
    assert FilteredAll([payload] + rest, t)[1..] == FilteredAll(rest, t);
  }

  method RelayLists(down: Connection, up: Connection, t: Targets, streaming: bool)
    requires down != up
    modifies down`written, up`unread
    ensures down.written == old(down.written) + Frames(FilteredAll(Answered(old(up.unread), streaming), t))
  {
    ghost var before, stream := down.written, up.unread;
    var going := true;
    while going
      invariant going ==>
        before + Frames(FilteredAll(Answered(stream, streaming), t)) ==
        down.written + Frames(FilteredAll(Answered(up.unread, streaming), t))
      invariant !going ==> down.written == before + Frames(FilteredAll(Answered(stream, streaming), t))
      decreases going, |up.unread|
    {
      ghost var now, sent := up.unread, down.written;
      var payload := up.ReadMessage();
      if payload.None? {
        going := false;
      } else {
        MessagesCons(now);
        var list := FilterDeviceList(payload.value, t);
        down.WriteMessage(list);
        if !streaming {
          going := false;
          FramesCons(payload.value, [], t);
          assert Messages(now)[..1] == [payload.value] + [];
        } else {
          FramesCons(payload.value, Messages(up.unread), t);
          Associate(sent, Frame(list), Frames(FilteredAll(Messages(up.unread), t)));
        }
      }
    }
  }

  /** Relay a device-list answer. Without a whole status nothing goes down and the relay fails; an
      answer that is not OKAY goes down unchanged. */
  method RelayFilteredList(down: Connection, up: Connection, t: Targets, streaming: bool) returns (ok: bool)
    requires down != up
    modifies down`written, up`unread
    ensures down.written == old(down.written) + Relayed(old(up.unread), t, streaming)
    ensures ok <==> |old(up.unread)| >= 4
    ensures !ok ==> down.written == old(down.written)
    ensures ok && old(up.unread)[..4] != "OKAY" ==> down.written == old(down.written) + old(up.unread)
  {
    ghost var before, stream := down.written, up.unread;
    var status := up.ReadExact(4);
    if status.None? {
      return false;
    }
    down.written := down.written + status.value;
    if status.value != OKAY {
      Associate(before, status.value, up.unread);
      assert stream == status.value + up.unread;
      down.written := down.written + up.unread;
      up.unread := [];
      return true;
    }
    RelayLists(down, up, t, streaming);
    Associate(before, status.value, Frames(FilteredAll(Answered(stream[4..], streaming), t)));
    return true;
  }

  lemma {:induction false} ParsedOfFiltered(payloads: seq<string>, t: Targets)
    ensures ParsedAll(FilteredAll(payloads, t)) == SharedAll(ParsedAll(payloads), t)
  {
    if payloads != [] {
      ParsedOfFiltered(payloads[1..], t);
      ParseOfFiltered(payloads[0], t);
    }
  }

  /** Reading back what the relay wrote gives the filtered form of every list it was sent, in order,
      exactly when each filtered list fits in a message; and those parse to the shared devices of each
      list sent. This holds for any bytes from upstream that begin with OKAY. */
  lemma RelayReadsBack(stream: string, t: Targets, streaming: bool)
    requires |stream| >= 4 && stream[..4] == OKAY
    ensures var sent := Answered(stream[4..], streaming); var got := Messages(Relayed(stream, t, streaming)[4..]);
      && sent == (if streaming || Messages(stream[4..]) == [] then Messages(stream[4..])
                  else [Messages(stream[4..])[0]])
      && (got == FilteredAll(sent, t) <==> AllFit(FilteredAll(sent, t)))
      && (AllFit(FilteredAll(sent, t)) ==> ParsedAll(got) == SharedAll(ParsedAll(sent), t))
  {
    var sent := Answered(stream[4..], streaming);
    FramesReadBack(FilteredAll(sent, t));
    ParsedOfFiltered(sent, t);
    assert Relayed(stream, t, streaming)[4..] == Frames(FilteredAll(sent, t));
  }

  /** The one shape that does not pass: 65535 bytes, and one more once filtered. */
  predicate TooLong(p: string, t: Targets) { |p| == MAX_FRAMED && Grows(p, t) }

  predicate NoneTooLong(lists: seq<string>, t: Targets) { forall p :: p in lists ==> !TooLong(p, t) }

  lemma {:induction false} FilteredAllFits(payloads: seq<string>, t: Targets)
    requires AllFit(payloads)
    ensures AllFit(FilteredAll(payloads, t)) <==> NoneTooLong(payloads, t)
  {
    if payloads != [] {
      var p, rest := payloads[0], payloads[1..];
      assert payloads == [p] + rest && AllFit(rest);
      FilteredAllFits(rest, t);
      FilteredFits(p, t);
      FitsCons(Filtered(p, t), FilteredAll(rest, t));
      assert NoneTooLong(payloads, t) <==> !TooLong(p, t) && NoneTooLong(rest, t);
    }
  }

  lemma FilteredFits(p: string, t: Targets)
    requires |p| <= MAX_FRAMED
    ensures |Filtered(p, t)| <= MAX_FRAMED <==> !TooLong(p, t)
  {
    FilteredLength(p, t);
    FilteredGrows(p, t);
  }

  lemma FitsCons(p: string, rest: seq<string>)
    ensures AllFit([p] + rest) <==> |p| <= MAX_FRAMED && AllFit(rest)
  {
    assert forall q :: q in [p] + rest <==> q == p || q in rest;
    assert p in [p] + rest;
  }

  /** Lists of any kind read back filtered, each in its place, exactly when none is of the one shape that
      does not pass; and then they parse to the shared devices of each. */
  lemma RelayDeliversShared(lists: seq<string>, t: Targets)
    requires AllFit(lists)
    ensures var got := Messages(Relayed(OKAY + Frames(lists), t, true)[4..]);
      && (got == FilteredAll(lists, t) <==> NoneTooLong(lists, t))
      && (NoneTooLong(lists, t) ==> ParsedAll(got) == SharedAll(ParsedAll(lists), t))
  {
    var stream := OKAY + Frames(lists);
    assert stream[4..] == Frames(lists) && stream[..4] == OKAY;
    FramesReadBack(lists);
    FilteredAllFits(lists, t);
    RelayReadsBack(stream, t, true);
  }

  lemma {:induction false} TokensOfSpaces(s: string, n: nat)
    ensures Tokens(s + Repeat(' ', n)) == Tokens(s)
  {
    if n == 0 {
      assert s + Repeat(' ', 0) == s;
    } else {
      TokensOfSpaces(s, n - 1);
      TokensOfTrailing(s + Repeat(' ', n - 1), ' ');
      assert s + Repeat(' ', n) == s + Repeat(' ', n - 1) + [' '];
    }
  }

  /** The shape that does not pass exists: one shared serial, padded to 65535 bytes. */
  lemma LongListBreaks(p: string, t: Targets)
    requires p == "a" + Repeat(' ', MAX_FRAMED - 1) && t == Only(["a"])
    ensures |p| == MAX_FRAMED && Messages(Frames([p])) == [p]
    ensures Messages(Relayed(OKAY + Frames([p]), t, true)[4..]) != [Filtered(p, t)]
  {
    TokensOfSpaces("a", MAX_FRAMED - 1);
    assert Tokens("a") == ["a"] by {
      assert "a"[..1] == "a" && WordEnd("a") == 1;
    }
    assert NL !in p;
    assert LineEnd(p) == |p| && Lines(p) == [p];
    assert Filtered(p, t) == p + [NL] by {
      assert [p][1..] == [] && KeepsLine(p, t);
      assert KeptLines([p], t) == p + [NL] + KeptLines([], t);
    }
    FramesReadBack([p]);
    var stream := OKAY + Frames([p]);
    assert stream[4..] == Frames([p]) && stream[..4] == OKAY;
    RelayReadsBack(stream, t, true);
    assert FilteredAll([p], t) == [Filtered(p, t)];
    assert Filtered(p, t) in FilteredAll([p], t);
  }
}
