/**
 * The welcome TUI's key handling: a sliding window over the last typed
 * characters (bounded by Rust's byte length, `String::len`), the "200" exit
 * command, and the latched `show_link` flag toggled on by `d` or `D`.
 */
module TuiApp {
  import opened Common

  /** crossterm's key codes; the lock, media and modifier keys are `OtherKey`. */
  datatype KeyCode =
    | Char(ch: char)
    | Backspace | Enter | Left | Right | Up | Down | Home | End | PageUp | PageDown
    | Tab | BackTab | Delete | Insert | F(n: nat) | Null | Esc | OtherKey

  datatype KeyEventKind = Press | Repeat | Release

  datatype KeyEvent = KeyEvent(code: KeyCode, kind: KeyEventKind)

  /** The three fields of `App`. */
  datatype AppState = AppState(inputBuffer: string, running: bool, showLink: bool)

  /** The typed text that stops the application. */
  const EXIT_COMMAND: string := "200"
  /**
   * The eviction threshold: a window longer than this many bytes loses its
   * first character. Only one character goes per key, so the window keeps at
   * most three characters, which may be more than three bytes.
   */
  const WINDOW_BYTES: nat := 3

  /** `String::len`: the UTF-8 length of `s` in bytes. */
  function ByteLen(s: string): nat
  {
    |Utf8(s)|
  }

  /** The last `n` elements of `s` (all of `s` when it is shorter). */
  function LastN<T>(s: seq<T>, n: nat): (r: seq<T>)
  {
    if |s| <= n then s else s[|s| - n..]
  }

  /** `push(c)`, then one `remove(0)` when the buffer is longer than three bytes. */
  function Slide(buf: string, c: char): string
  {
    var b := buf + [c];
    if ByteLen(b) > WINDOW_BYTES then b[1..] else b
  }

  /** `on_key_event`, on the fields of `App`. */
  function OnKey(s: AppState, code: KeyCode): AppState
  {
    match code
    case Char(c) =>
      var w := Slide(s.inputBuffer, c);
      AppState(w,
               if w == EXIT_COMMAND then false else s.running,
               if c == 'd' || c == 'D' then true else s.showLink)
    case _ => s
  }

  /** The app after the key codes `codes`, in order. */
  function Feed(s: AppState, codes: seq<KeyCode>): AppState
  {
    if codes == [] then s else OnKey(Feed(s, codes[..|codes| - 1]), codes[|codes| - 1])
  }

  /** The characters among `codes`, in order. */
  function Typed(codes: seq<KeyCode>): string
  {
    if codes == [] then []
    else
      var last := codes[|codes| - 1];
      Typed(codes[..|codes| - 1]) + (if last.Char? then [last.ch] else [])
  }

  predicate AsciiKeys(codes: seq<KeyCode>)
  {
    forall i :: 0 <= i < |codes| && codes[i].Char? ==> codes[i].ch as int < 128
  }

  lemma {:induction false} ByteLenAtLeastLength(s: string)
    ensures ByteLen(s) >= |s|
  {
    if s != [] {
      ByteLenAtLeastLength(s[..|s| - 1]);
    }
  }

  lemma {:induction false} ByteLenAscii(s: string)
    requires IsAscii(s)
    ensures ByteLen(s) == |s|
  {
    if s != [] {
      ByteLenAscii(s[..|s| - 1]);
    }
  }

  /**
   * For any character, a window of at most three characters stays at most
   * three characters long and is the old window plus `c` with at most the
   * oldest character evicted.
   */
  lemma SlideWindow(buf: string, c: char)
    requires |buf| <= 3
    ensures |Slide(buf, c)| <= 3
    ensures EndsWith(buf + [c], Slide(buf, c))
    ensures |Slide(buf, c)| >= |buf|
  {
    ByteLenAtLeastLength(buf + [c]);
    var b := buf + [c];
    assert b[|b| - |Slide(buf, c)|..] == Slide(buf, c);
  }

  /** For ASCII text the byte bound is a character bound: the last three characters. */
  lemma SlideAscii(buf: string, c: char)
    requires |buf| <= 3 && IsAscii(buf + [c])
    ensures Slide(buf, c) == LastN(buf + [c], 3)
  {
    ByteLenAscii(buf + [c]);
  }

  /** A key other than a character changes nothing. */
  lemma NonCharKeyIgnored(s: AppState, code: KeyCode)
    requires !code.Char?
    ensures OnKey(s, code) == s
  {
  }

  /**
   * A key never sets `running`; a character key clears it exactly when the
   * updated window reads "200".
   */
  lemma KeyRunning(s: AppState, code: KeyCode)
    ensures OnKey(s, code).running ==> s.running
    ensures code.Char? ==>
      (OnKey(s, code).running <==> s.running && OnKey(s, code).inputBuffer != EXIT_COMMAND)
  {
  }

  /**
   * `show_link` is set by `d` and `D` and never cleared, so pressing either
   * again changes nothing; `d` and `D` enter the window like any character.
   */
  lemma KeyShowLink(s: AppState, code: KeyCode)
    ensures OnKey(s, code).showLink <==> s.showLink || code == Char('d') || code == Char('D')
    ensures (code == Char('d') || code == Char('D')) ==>
      OnKey(s, code).inputBuffer == Slide(s.inputBuffer, code.ch)
    ensures s.showLink ==> OnKey(s, code).showLink
  {
  }

  lemma FeedAppend(s: AppState, codes: seq<KeyCode>, code: KeyCode)
    ensures Feed(s, codes + [code]) == OnKey(Feed(s, codes), code)
  {
    assert (codes + [code])[..|codes|] == codes;
  }

  lemma FeedChar(s: AppState, codes: seq<KeyCode>, c: char)
    ensures Feed(s, codes + [Char(c)]).inputBuffer == Slide(Feed(s, codes).inputBuffer, c)
    ensures Feed(s, codes + [Char(c)]).running ==
      (Feed(s, codes).running && Slide(Feed(s, codes).inputBuffer, c) != EXIT_COMMAND)
  {
    FeedAppend(s, codes, Char(c));
  }

  /** Typing never makes a stopped app run again. */
  lemma {:induction false} FeedNeverResumes(s: AppState, codes: seq<KeyCode>)
    ensures Feed(s, codes).running ==> s.running
  {
    if codes != [] {
      FeedNeverResumes(s, codes[..|codes| - 1]);
    }
  }

  /** Once shown the link stays shown, and any `d` or `D` shows it. */
  lemma {:induction false} FeedShowLinkLatched(s: AppState, codes: seq<KeyCode>)
    ensures s.showLink ==> Feed(s, codes).showLink
    ensures (exists i :: 0 <= i < |codes| && (codes[i] == Char('d') || codes[i] == Char('D')))
      ==> Feed(s, codes).showLink
  {
    if codes != [] {
      var init := codes[..|codes| - 1];
      FeedShowLinkLatched(s, init);
      if exists i :: 0 <= i < |codes| && (codes[i] == Char('d') || codes[i] == Char('D')) {
        var i :| 0 <= i < |codes| && (codes[i] == Char('d') || codes[i] == Char('D'));
        if i < |init| {
          assert init[i] == codes[i];
        }
      }
    }
  }

  /** The window never holds more than three characters. */
  lemma {:induction false} FeedWindowBound(s: AppState, codes: seq<KeyCode>)
    requires |s.inputBuffer| <= 3
    ensures |Feed(s, codes).inputBuffer| <= 3
  {
    if codes != [] {
      FeedWindowBound(s, codes[..|codes| - 1]);
      var last := codes[|codes| - 1];
      if last.Char? {
        SlideWindow(Feed(s, codes[..|codes| - 1]).inputBuffer, last.ch);
      }
    }
  }

  lemma LastNSlide(x: string, c: char)
    ensures LastN(LastN(x, 3) + [c], 3) == LastN(x + [c], 3)
  {
    if |x| > 3 {
      assert (x[|x| - 3..] + [c])[1..] == (x + [c])[|x| + 1 - 3..];
    }
  }

  lemma LastNAscii(x: string)
    requires IsAscii(x)
    ensures IsAscii(LastN(x, 3))
  {
  }

  lemma {:induction false} TypedAscii(codes: seq<KeyCode>)
    requires AsciiKeys(codes)
    ensures IsAscii(Typed(codes))
  {
    if codes != [] {
      var init := codes[..|codes| - 1];
      assert AsciiKeys(init) by {
        forall i | 0 <= i < |init| && init[i].Char? ensures init[i].ch as int < 128 {
          assert init[i] == codes[i];
        }
      }
      TypedAscii(init);
    }
  }

  /**
   * For ASCII keys the window is exactly the last three characters typed:
   * it slides, it is never reset.
   */
  lemma {:induction false} FeedWindowAscii(s: AppState, codes: seq<KeyCode>)
    requires |s.inputBuffer| <= 3 && IsAscii(s.inputBuffer) && AsciiKeys(codes)
    ensures Feed(s, codes).inputBuffer == LastN(s.inputBuffer + Typed(codes), 3)
  {
    if codes != [] {
      var init := codes[..|codes| - 1];
      var last := codes[|codes| - 1];
      assert AsciiKeys(init) by {
        forall i | 0 <= i < |init| && init[i].Char? ensures init[i].ch as int < 128 {
          assert init[i] == codes[i];
        }
      }
      FeedWindowAscii(s, init);
      var x := s.inputBuffer + Typed(init);
      var w := Feed(s, init).inputBuffer;
      assert w == LastN(x, 3);
      if last.Char? {
        TypedAscii(init);
        assert IsAscii(x);
        LastNAscii(x);
        assert IsAscii(w + [last.ch]);
        SlideAscii(w, last.ch);
        LastNSlide(x, last.ch);
        assert s.inputBuffer + Typed(codes) == x + [last.ch];
      } else {
        assert s.inputBuffer + Typed(codes) == x;
      }
    }
  }

  /**
   * An ASCII key extends any ASCII suffix of at most two characters: the
   * eviction only happens when there is an older character to evict.
   */
  lemma SlideExtendsSuffix(buf: string, c: char, t: string)
    requires |buf| <= 3 && |t| <= 2 && EndsWith(buf, t) && IsAscii(t + [c])
    ensures |Slide(buf, c)| <= 3
    ensures EndsWith(Slide(buf, c), t + [c])
  {
    var b := buf + [c];
    assert b[|b| - |t| - 1..] == t + [c];
    if |buf| == |t| {
      assert buf == buf[|buf| - |t|..] == t;
      SlideShortAscii(buf, c);
    } else {
      SlideKeepsTail(buf, c, |t| + 1);
    }
  }

  /** An ASCII window of at most two characters takes the next ASCII key without eviction. */
  lemma SlideShortAscii(buf: string, c: char)
    requires |buf| <= 2 && IsAscii(buf + [c])
    ensures Slide(buf, c) == buf + [c]
  {
    ByteLenAscii(buf + [c]);
  }

  /** The last `k` characters of `buf + [c]` survive a slide when `buf` has at least `k` of its own. */
  lemma SlideKeepsTail(buf: string, c: char, k: nat)
    requires |buf| <= 3 && k <= |buf|
    ensures |Slide(buf, c)| <= 3
    ensures EndsWith(Slide(buf, c), (buf + [c])[|buf| + 1 - k..])
  {
    SlideWindow(buf, c);
    var b := buf + [c];
    var w := Slide(buf, c);
    assert w == b || w == b[1..];
    assert w[|w| - k..] == b[|b| - k..];
  }

  /** Eviction bounds characters, not bytes: after "abc", typing 'é' leaves the four-byte window "bcé". */
  lemma WindowCanExceedThreeBytes()
    ensures Slide("abc", 'é') == "bcé"
    ensures ByteLen(Slide("abc", 'é')) == 4
  {
    var b := "abc" + ['é'];
    assert b[..3] == "abc";
    assert b[1..] == "bcé" && "bcé"[..2] == "bc";
    assert IsAscii("abc") && IsAscii("bc");
    ByteLenAscii("abc");
    ByteLenAscii("bc");
    assert ByteLen(b) == 5;
    assert ByteLen("bcé") == 4;
  }

  lemma TypeTwo(w0: string)
    requires |w0| <= 3
    ensures |Slide(w0, '2')| <= 3 && EndsWith(Slide(w0, '2'), ['2'])
  {
    assert IsAscii([] + ['2']);
    SlideExtendsSuffix(w0, '2', []);
  }

  lemma TypeZeroAfterTwo(w1: string)
    requires |w1| <= 3 && EndsWith(w1, ['2'])
    ensures |Slide(w1, '0')| <= 3 && EndsWith(Slide(w1, '0'), ['2', '0'])
  {
    assert IsAscii(['2'] + ['0']);
    SlideExtendsSuffix(w1, '0', ['2']);
  }

  lemma TypeZeroAfterTwenty(w2: string)
    requires |w2| <= 3 && EndsWith(w2, ['2', '0'])
    ensures Slide(w2, '0') == EXIT_COMMAND
  {
    assert IsAscii(['2', '0'] + ['0']);
    SlideExtendsSuffix(w2, '0', ['2', '0']);
    assert ['2', '0'] + ['0'] == EXIT_COMMAND;
  }

  /** Typing "200" into any window of at most three characters yields "200". */
  lemma TypingExitCommand(w0: string)
    requires |w0| <= 3
    ensures Slide(Slide(Slide(w0, '2'), '0'), '0') == EXIT_COMMAND
  {
    TypeTwo(w0);
    TypeZeroAfterTwo(Slide(w0, '2'));
    TypeZeroAfterTwenty(Slide(Slide(w0, '2'), '0'));
  }

  /**
   * Whatever came before, typing '2', '0', '0' stops the app: the window
   * slides, so earlier characters (ASCII or not) cannot mask the command.
   */
  lemma ExitAfter200(s: AppState, before: seq<KeyCode>)
    requires |s.inputBuffer| <= 3
    ensures !Feed(s, before + [Char('2'), Char('0'), Char('0')]).running
  {
    var p1 := before + [Char('2')];
    var p2 := p1 + [Char('0')];
    assert p2 + [Char('0')] == before + [Char('2'), Char('0'), Char('0')];
    FeedWindowBound(s, before);
    FeedChar(s, before, '2');
    FeedChar(s, p1, '0');
    FeedChar(s, p2, '0');
    TypingExitCommand(Feed(s, before).inputBuffer);
  }

  /** '1','2','0','0' exits although the window already held "120". */
  lemma SlidingWindowExample()
    ensures !Feed(AppState("", true, false), [Char('1'), Char('2'), Char('0'), Char('0')]).running
  {
    ExitAfter200(AppState("", true, false), [Char('1')]);
    assert [Char('1')] + [Char('2'), Char('0'), Char('0')] == [Char('1'), Char('2'), Char('0'), Char('0')];
  }

  /** '1','2','0' leaves a running app running: the window "120" is not the command. */
  lemma NoExitWithout200()
    ensures Feed(AppState("", true, false), [Char('1'), Char('2'), Char('0')]).running
  {
    var s0 := AppState("", true, false);
    var k1 := [Char('1')];
    var k2 := k1 + [Char('2')];
    var k3 := k2 + [Char('0')];
    assert IsAscii("" + ['1']) && IsAscii("1" + ['2']) && IsAscii("12" + ['0']);
    assert [] + [Char('1')] == k1;
    FeedChar(s0, [], '1');
    SlideAscii("", '1');
    assert Feed(s0, k1) == AppState("1", true, false);
    FeedChar(s0, k1, '2');
    SlideAscii("1", '2');
    FeedChar(s0, k2, '0');
    SlideAscii("12", '0');
    assert k3 == [Char('1'), Char('2'), Char('0')];
  }

  class App {
    var inputBuffer: string
    var running: bool
    var showLink: bool

    function State(): AppState
      reads this
    {
      AppState(inputBuffer, running, showLink)
    }

    /** At most three characters are ever buffered. */
    ghost predicate Valid()
      reads this
    {
      |inputBuffer| <= 3
    }

    /** `App::new` and `App::default`: empty buffer, not running, link hidden. */
    constructor New()
      ensures Valid()
      ensures State() == AppState("", false, false)
    {
      inputBuffer, running, showLink := "", false, false;
    }

    method OnKeyEvent(key: KeyEvent)
      requires Valid()
      modifies this
      ensures Valid()
      ensures State() == OnKey(old(State()), key.code)
    {
      if key.code.Char? {
        var c := key.code.ch;
        SlideWindow(inputBuffer, c);
        inputBuffer := inputBuffer + [c];
        if ByteLen(inputBuffer) > WINDOW_BYTES {
          inputBuffer := inputBuffer[1..];
        }
        if inputBuffer == EXIT_COMMAND {
          running := false;
        }
        if c == 'd' || c == 'D' {
          if !showLink {
            showLink := true;
          }
        }
      }
    }
  }
}
