/**
 * The text of a queue announcement: each character of the queue number
 * spoken as an Indonesian digit word, and the counter number as a word.
 * Playing the text is not modelled; only the text is.
 */
module Speech {
  import opened Wrappers
  import opened Decimal

  /** `numberWords`: the word for each decimal digit, nothing for any other character. */
  function NumberWord(c: char): (r: Option<string>)
    ensures r.Some? <==> IsDigit(c)
    ensures r.Some? ==> |r.value| > 0 && ' ' !in r.value && ',' !in r.value
  {
    match c
    case '0' => Some("nol")
    case '1' => Some("satu")
    case '2' => Some("dua")
    case '3' => Some("tiga")
    case '4' => Some("empat")
    case '5' => Some("lima")
    case '6' => Some("enam")
    case '7' => Some("tujuh")
    case '8' => Some("delapan")
    case '9' => Some("sembilan")
    case _ => None
  }

  /** The digit a number word stands for: the inverse of `numberWords`. */
  function DigitOfWord(w: string): Option<char> {
    if w == "nol" then Some('0')
    else if w == "satu" then Some('1')
    else if w == "dua" then Some('2')
    else if w == "tiga" then Some('3')
    else if w == "empat" then Some('4')
    else if w == "lima" then Some('5')
    else if w == "enam" then Some('6')
    else if w == "tujuh" then Some('7')
    else if w == "delapan" then Some('8')
    else if w == "sembilan" then Some('9')
    else None
  }

  lemma DigitWordRoundTrip(c: char)
    requires IsDigit(c)
    ensures DigitOfWord(NumberWord(c).value) == Some(c)
  {
    assert c == '0' || c == '1' || c == '2' || c == '3' || c == '4' ||
           c == '5' || c == '6' || c == '7' || c == '8' || c == '9';
  }

  /** `numberWords[digit] || digit`: the word, or the character itself. */
  function SpokenPiece(c: char): (r: string)
    ensures IsDigit(c) ==> Some(r) == NumberWord(c)
    ensures !IsDigit(c) ==> r == [c]
    ensures |r| > 0
  {
    NumberWord(c).GetOr([c])
  }

  /** `num.split('').map(...)`: one spoken piece per character, in order. */
  function Pieces(num: string): (r: seq<string>)
    ensures |r| == |num|
    ensures forall i :: 0 <= i < |num| ==> r[i] == SpokenPiece(num[i])
  {
    if num == [] then [] else [SpokenPiece(num[0])] + Pieces(num[1..])
  }

  /** `pieces.join(' ')`. The first piece always survives at the front. */
  function JoinWithSpaces(pieces: seq<string>): (r: string)
    ensures |pieces| == 0 ==> r == []
    ensures |pieces| > 0 ==> |r| >= |pieces[0]| && r[..|pieces[0]|] == pieces[0]
    ensures |pieces| > 1 ==> |r| > |pieces[0]| && r[|pieces[0]|] == ' ' 
    decreases |pieces|
  {
    if |pieces| == 0 then ""
    else if |pieces| == 1 then pieces[0]
    else pieces[0] + " " + JoinWithSpaces(pieces[1..])
  }

  /** `formatNumberForSpeech`. The result is empty exactly when the input is. */
  function FormatNumberForSpeech(num: string): (r: string)
    ensures r == [] <==> num == []
  {
    JoinWithSpaces(Pieces(num))
  }

  /** Leading zeros are each spoken: "007" is read out digit by digit. */
  lemma SpeakLeadingZeros()
    ensures FormatNumberForSpeech("007") == "nol nol tujuh"
  {
    var ps := Pieces("007");
    assert ps == ["nol", "nol", "tujuh"];
    assert JoinWithSpaces(ps[2..]) == "tujuh";
    assert JoinWithSpaces(ps[1..]) == "nol" + " " + "tujuh";
  }

  // ---------------------------------------------------------------------------
  // Reading a spoken number back
  // ---------------------------------------------------------------------------

  function FirstIndexOf(t: string, c: char): (r: nat)
    requires c in t
    ensures r < |t| && t[r] == c && c !in t[..r]
  {
    if t[0] == c then 0 else FirstIndexOf(t[1..], c) + 1
  }

  /** `t.split(' ')`. */
  function SplitOnSpaces(t: string): seq<string>
    decreases |t|
  {
    if ' ' !in t then [t]
    else
      var i := FirstIndexOf(t, ' ');
      [t[..i]] + SplitOnSpaces(t[i + 1..])
  }

  /** A space-free word followed by a space splits off as the first word. */
  lemma SplitOffFirst(x: string, rest: string)
    requires ' ' !in x
    ensures SplitOnSpaces(x + (" " + rest)) == [x] + SplitOnSpaces(rest)
  {
    var t := x + (" " + rest);
    FirstIndexAfter(x, " " + rest, ' ');
    assert t[..|x|] == x && t[|x| + 1..] == rest;
  }

  /** Joining words that hold no space and splitting on spaces gives the words back. */
  lemma {:induction false} SplitJoin(ps: seq<string>)
    requires |ps| >= 1 && forall i :: 0 <= i < |ps| ==> ' ' !in ps[i]
    ensures SplitOnSpaces(JoinWithSpaces(ps)) == ps
    decreases |ps|
  {
    if |ps| > 1 {
      var rest := JoinWithSpaces(ps[1..]);
      assert JoinWithSpaces(ps) == ps[0] + (" " + rest);
      assert ' ' !in ps[0];
      SplitOffFirst(ps[0], rest);
      SplitJoin(ps[1..]);
      assert ps == [ps[0]] + ps[1..];
    } else {
      assert JoinWithSpaces(ps) == ps[0];
    }
  }

  /**
   * For any input without spaces, the spoken text is one space-separated piece
   * per character: the digit's word for a digit, the character itself otherwise.
   */
  lemma SpokenPieces(num: string)
    requires num != [] && ' ' !in num
    ensures var ws := SplitOnSpaces(FormatNumberForSpeech(num));
            && |ws| == |num|
            && forall i :: 0 <= i < |num| ==>
                 (IsDigit(num[i]) ==> Some(ws[i]) == NumberWord(num[i])) &&
                 (!IsDigit(num[i]) ==> ws[i] == [num[i]])
  {
    var ps := Pieces(num);
    forall i | 0 <= i < |ps| ensures ' ' !in ps[i] {
      assert num[i] != ' ';
    }
    SplitJoin(ps);
  }

  function DigitsOfWords(ws: seq<string>): Option<string> {
    if ws == [] then Some([])
    else match (DigitOfWord(ws[0]), DigitsOfWords(ws[1..]))
      case (Some(d), Some(rest)) => Some([d] + rest)
      case _ => None
  }

  /** The digits a spoken number stands for, or `None` if some word is not a digit word. */
  function Unspeak(t: string): Option<string> {
    if t == [] then Some([]) else DigitsOfWords(SplitOnSpaces(t))
  }

  lemma {:induction false} DigitsOfPieces(num: string)
    requires AllDigits(num)
    ensures DigitsOfWords(Pieces(num)) == Some(num)
    decreases |num|
  {
    if num != [] {
      DigitWordRoundTrip(num[0]);
      assert Pieces(num)[1..] == Pieces(num[1..]);
      DigitsOfPieces(num[1..]);
      assert [num[0]] + num[1..] == num;
    }
  }

  /** A spoken queue number reads back as the number: no digit is lost or merged. */
  lemma SpeechRoundTrip(num: string)
    requires AllDigits(num)
    ensures Unspeak(FormatNumberForSpeech(num)) == Some(num)
  {
    if num != [] {
      var ps := Pieces(num);
      SplitJoin(ps);
      DigitsOfPieces(num);
    }
  }

  // ---------------------------------------------------------------------------
  // The counter word and the announcement text
  // ---------------------------------------------------------------------------

  /** `loketWords`: words for counters 1 to 5. */
  function LoketWordEntry(loket: int): (r: Option<string>)
    ensures r.Some? <==> 1 <= loket <= 5
    ensures r.Some? ==> r == NumberWord(DigitChar(loket))
  {
    if loket == 1 then Some("satu")
    else if loket == 2 then Some("dua")
    else if loket == 3 then Some("tiga")
    else if loket == 4 then Some("empat")
    else if loket == 5 then Some("lima")
    else None
  }

  /**
   * `loketWords[loket] || loket.toString()`: for 1..5 the same word the digit
   * gets in `numberWords`, otherwise the decimal string.
   */
  function LoketWord(loket: int): (r: string)
    ensures 1 <= loket <= 5 ==> Some(r) == NumberWord(DigitChar(loket))
    ensures !(1 <= loket <= 5) ==> r == IntToString(loket)
  {
    LoketWordEntry(loket).GetOr(IntToString(loket))
  }

  predicate IsLetter(c: char) {
    'a' <= c <= 'z'
  }

  /** A counter word starts with a letter exactly when it comes from the table. */
  lemma LoketWordKind(loket: int)
    ensures |LoketWord(loket)| > 0
    ensures IsLetter(LoketWord(loket)[0]) <==> 1 <= loket <= 5
  {
    if !(1 <= loket <= 5) {
      assert IsDigit(IntToString(loket)[0]) || IntToString(loket)[0] == '-';
    }
  }

  /** Different counters are announced with different words. */
  lemma LoketWordInjective(a: int, b: int)
    requires LoketWord(a) == LoketWord(b)
    ensures a == b
  {
    LoketWordKind(a);
    LoketWordKind(b);
    if 1 <= a <= 5 {
      DigitWordRoundTrip(DigitChar(a));
      DigitWordRoundTrip(DigitChar(b));
    } else {
      IntToStringInjective(a, b);
    }
  }

  const AnnouncementPrefix := "Nomor antrian "
  const CounterPhrase := ", menuju loket "

  /** The text `announceQueue` speaks. */
  function AnnouncementText(queueNumber: string, loket: int): (r: string)
    ensures |r| > |AnnouncementPrefix| && r[..|AnnouncementPrefix|] == AnnouncementPrefix
    ensures |r| >= |LoketWord(loket)| && r[|r| - |LoketWord(loket)|..] == LoketWord(loket)
    ensures var n := |AnnouncementPrefix| + |FormatNumberForSpeech(queueNumber)|;
            && |AnnouncementPrefix| <= n <= |r| - |LoketWord(loket)|
            && r[|AnnouncementPrefix|..n] == FormatNumberForSpeech(queueNumber)
            && r[n..|r| - |LoketWord(loket)|] == CounterPhrase
    ensures ',' !in queueNumber ==>
              ',' in r && FirstIndexOf(r, ',') == |AnnouncementPrefix| + |FormatNumberForSpeech(queueNumber)|
  {
    var spoken := FormatNumberForSpeech(queueNumber);
    var w := LoketWord(loket);
    SpokenHasNoComma(queueNumber);
    TemplateLayout(spoken, w);
    AnnouncementPrefix + spoken + CounterPhrase + w
  }

  /**
   * The template's fixed parts: the prefix leads, the counter word ends it,
   * and the first comma opens the counter phrase when the number has none.
   */
  lemma TemplateLayout(spoken: string, w: string)
    ensures var r := AnnouncementPrefix + spoken + CounterPhrase + w;
            && |r| > |AnnouncementPrefix| && r[..|AnnouncementPrefix|] == AnnouncementPrefix
            && r[|r| - |w|..] == w
            && r[|AnnouncementPrefix|..|AnnouncementPrefix| + |spoken|] == spoken
            && r[|AnnouncementPrefix| + |spoken|..|r| - |w|] == CounterPhrase
            && (',' !in spoken ==> ',' in r && FirstIndexOf(r, ',') == |AnnouncementPrefix| + |spoken|)
  {
    var x := AnnouncementPrefix + spoken;
    var u := CounterPhrase + w;
    var r := AnnouncementPrefix + spoken + CounterPhrase + w;
    assert r == x + u;
    assert r[..|AnnouncementPrefix|] == AnnouncementPrefix;
    assert r[|r| - |w|..] == w;
    assert r[|AnnouncementPrefix|..|AnnouncementPrefix| + |spoken|] == spoken;
    assert r[|AnnouncementPrefix| + |spoken|..|r| - |w|] == CounterPhrase;
    if ',' !in spoken {
      assert ',' !in AnnouncementPrefix;
      assert ',' !in x;
      FirstIndexAfter(x, u, ',');
    }
  }

  lemma {:induction false} JoinAvoids(ps: seq<string>, c: char)
    requires c != ' ' && forall i :: 0 <= i < |ps| ==> c !in ps[i]
    ensures c !in JoinWithSpaces(ps)
    decreases |ps|
  {
    if |ps| > 1 {
      JoinAvoids(ps[1..], c);
    }
  }

  /** The first `c` in `x + u` is the head of `u` when `x` holds no `c`. */
  lemma {:induction false} FirstIndexAfter(x: string, u: string, c: char)
    requires c !in x && |u| > 0 && u[0] == c
    ensures c in x + u && FirstIndexOf(x + u, c) == |x|
    decreases |x|
  {
    assert (x + u)[|x|] == c;
    if x != [] {
      assert (x + u)[1..] == x[1..] + u;
      FirstIndexAfter(x[1..], u, c);
    }
  }

  /** A spoken number holds no comma. */
  lemma SpokenHasNoComma(num: string)
    ensures ',' !in FormatNumberForSpeech(num) || ',' in num
  {
    if ',' !in num {
      var ps := Pieces(num);
      forall i | 0 <= i < |ps| ensures ',' !in ps[i] {
        assert ps[i] == SpokenPiece(num[i]);
      }
      JoinAvoids(ps, ',');
    }
  }

  /** Two comma-free heads followed by comma-led tails split the same way. */
  lemma SplitAtComma(x1: string, u1: string, x2: string, u2: string)
    requires ',' !in x1 && ',' !in x2
    requires |u1| > 0 && u1[0] == ',' && |u2| > 0 && u2[0] == ','
    requires x1 + u1 == x2 + u2
    ensures x1 == x2 && u1 == u2
  {
    FirstIndexAfter(x1, u1, ',');
    FirstIndexAfter(x2, u2, ',');
    assert x1 == (x1 + u1)[..|x1|];
    assert x2 == (x2 + u2)[..|x2|];
    assert u1 == (x1 + u1)[|x1|..];
    assert u2 == (x2 + u2)[|x2|..];
  }

  /** The announcement template splits back into its two comma-free-led parts. */
  lemma TemplateSplit(sa: string, w1: string, sb: string, w2: string)
    requires ',' !in sa && ',' !in sb
    requires AnnouncementPrefix + sa + CounterPhrase + w1 == AnnouncementPrefix + sb + CounterPhrase + w2
    ensures sa == sb && w1 == w2
  {
    var x1, x2 := AnnouncementPrefix + sa, AnnouncementPrefix + sb;
    var u1, u2 := CounterPhrase + w1, CounterPhrase + w2;
    assert AnnouncementPrefix + sa + CounterPhrase + w1 == x1 + u1;
    assert AnnouncementPrefix + sb + CounterPhrase + w2 == x2 + u2;
    SplitAtComma(x1, u1, x2, u2);
    assert sa == x1[|AnnouncementPrefix|..] && sb == x2[|AnnouncementPrefix|..];
    assert w1 == u1[|CounterPhrase|..] && w2 == u2[|CounterPhrase|..];
  }

  /**
   * The announcement is unambiguous: two announcements of digit-string
   * numbers are the same text only for the same number and the same counter.
   */
  lemma AnnouncementIsUnambiguous(a: string, l1: int, b: string, l2: int)
    requires AllDigits(a) && AllDigits(b)
    requires AnnouncementText(a, l1) == AnnouncementText(b, l2)
    ensures a == b && l1 == l2
  {
    assert ',' !in a && ',' !in b;
    SpokenHasNoComma(a);
    SpokenHasNoComma(b);
    TemplateSplit(FormatNumberForSpeech(a), LoketWord(l1), FormatNumberForSpeech(b), LoketWord(l2));
    SpeechRoundTrip(a);
    SpeechRoundTrip(b);
    LoketWordInjective(l1, l2);
  }
}
