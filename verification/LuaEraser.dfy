/**
 Erasing the profiler's calls from a Lua script, in place, for builds without the profiler.
 */
module LuaEraser {
  import opened Options

  predicate Starts(s: string, p: string) { p <= s }

  // How far it is to the parenthesis that brings the number of open ones from cnt to zero.
  function FindEnd(s: string, cnt: nat): (r: Option<nat>)
    ensures r.Some? ==> r.value <= |s|
  {
    if cnt == 0 then Some(0)
    else if s == "" then None
    else
      match FindEnd(s[1..], if s[0] == '(' then cnt + 1 else if s[0] == ')' then cnt - 1 else cnt)
      case Some(n) => Some(n + 1)
      case None => None
  }

  // What to do with a text: go on after n characters, blank n characters, or run past its end.
  datatype Move = Skip(n: nat) | Blank(n: nat) | Overrun

  function Call(s: string, k: nat): Move
    requires k <= |s|
  {
    match FindEnd(s[k..], 1)
    case Some(n) => Blank(k + n)
    case None => Overrun
  }

  function LookZone(s: string): (m: Move)
    requires |s| >= 10
    ensures m.Skip? ==> m.n == 10
    ensures m.Blank? ==> 15 <= m.n <= |s|
  {
    if Starts(s[10..], "End()") then Blank(15)
    else if Starts(s[10..], "Begin()") then Blank(17)
    else if Starts(s[10..], "Text(") then Call(s, 15)
    else if Starts(s[10..], "Name(") then Call(s, 15)
    else if Starts(s[10..], "BeginN(") then Call(s, 17)
    else if Starts(s[10..], "BeginS(") then Call(s, 17)
    else if Starts(s[10..], "BeginNS(") then Call(s, 18)
    else Skip(10)
  }

  function Look(s: string): (m: Move)
    requires s != ""
    ensures m.Skip? ==> m.n in {1, 6, 10} && m.n <= |s|
    ensures m.Blank? ==> 1 <= m.n <= |s|
  {
    if !Starts(s, "tracy.") then Skip(1)
    else if Starts(s[6..], "Zone") then LookZone(s)
    else if Starts(s[6..], "Message(") then Call(s, 14)
    else Skip(6)
  }

  // Every call that the eraser comes to is closed before the text ends.
  predicate Closed(s: string)
    decreases |s|
  {
    s == "" || match Look(s)
               case Skip(n) => Closed(s[n..])
               case Blank(n) => Closed(s[n..])
               case Overrun => false
  }

  function Spaces(n: nat): (r: string)
    ensures |r| == n && forall i :: 0 <= i < n ==> r[i] == ' '
  {
    seq(n, i => ' ')
  }

  function Erased(s: string): (r: string)
    requires Closed(s)
    ensures |r| == |s|
    ensures forall i :: 0 <= i < |s| ==> r[i] == s[i] || r[i] == ' '
    decreases |s|
  {
    if s == "" then ""
    else
      match Look(s)
      case Skip(n) => s[..n] + Erased(s[n..])
      case Blank(n) => Spaces(n) + Erased(s[n..])
  }

  // ---------- Only calls are blanked ----------

  // Open parentheses less closed ones.
  function Balance(s: string): int {
    if s == "" then 0 else (if s[0] == '(' then 1 else if s[0] == ')' then -1 else 0) + Balance(s[1..])
  }

  // The end is where the parentheses are first in balance.
  lemma {:induction false} EndIsFirst(s: string, cnt: nat, m: nat)
    requires FindEnd(s, cnt).Some? && m <= FindEnd(s, cnt).value
    ensures Balance(s[..m]) + cnt >= 0
    ensures Balance(s[..m]) + cnt == 0 <==> m == FindEnd(s, cnt).value
  {
    if cnt > 0 && m > 0 {
      var c := if s[0] == '(' then cnt + 1 else if s[0] == ')' then cnt - 1 else cnt;
      EndIsFirst(s[1..], c, m - 1);
      assert s[..m][1..] == s[1..][..m - 1];
    }
  }

  // ... and without a balance there is no end.
  lemma {:induction false} EndIfBalanced(s: string, cnt: nat, m: nat)
    requires m <= |s| && Balance(s[..m]) + cnt == 0
    ensures FindEnd(s, cnt).Some? && FindEnd(s, cnt).value <= m
  {
    if cnt > 0 {
      assert m > 0;
      var c := if s[0] == '(' then cnt + 1 else if s[0] == ')' then cnt - 1 else cnt;
      assert s[..m][1..] == s[1..][..m - 1];
      EndIfBalanced(s[1..], c, m - 1);
    }
  }

  // Position i lies in a call that begins at a.
  predicate InCallAt(s: string, i: nat, a: nat) {
    a <= i && a < |s| && Look(s[a..]).Blank? && i < a + Look(s[a..]).n <= |s|
  }

  predicate Changed(s: string, i: nat) { Closed(s) && i < |s| && Erased(s)[i] != s[i] }

  ghost predicate InCall(s: string, i: nat) { exists a :: InCallAt(s, i, a) }

  // A character that has changed lies in a call that the eraser found.
  lemma {:induction false} ChangedInCall(s: string, i: nat)
    requires Changed(s, i)
    ensures InCall(s, i)
    decreases |s|
  {
    var k := ChangedHere(s, i);
    if i < k {
      FirstCall(s, i);
    } else {
      Later(s, i, k);
    }
  }

  lemma {:induction false} Later(s: string, i: nat, k: nat)
    requires 0 < k <= i < |s| && Changed(s[k..], i - k)
    ensures InCall(s, i)
    decreases |s|, 0
  {
    hide Changed, InCallAt;
    ChangedInCall(s[k..], i - k);
    var a :| InCallAt(s[k..], i - k, a);
    CallShifts(s, k, i, a);
  }

  lemma FirstCall(s: string, i: nat)
    requires s != "" && Look(s).Blank? && i < Look(s).n
    ensures InCallAt(s, i, 0)
  {
    DropDrop(s, 0, 0);
    hide Look;
  }

  lemma CallShifts(s: string, k: nat, i: nat, a: nat)
    requires k <= i < |s| && InCallAt(s[k..], i - k, a)
    ensures InCallAt(s, i, a + k)
  {
    DropDrop(s, k, a);
    hide Look;
  }

  lemma DropDrop<T>(s: seq<T>, a: nat, b: nat)
    requires a + b <= |s|
    ensures s[a..][b..] == s[a + b..] && s[0..] == s
  {
  }

  // How far the eraser moves from the start, and on which side of that the change lies.
  lemma ChangedHere(s: string, i: nat) returns (k: nat)
    requires Changed(s, i)
    ensures 0 < k <= |s| && i < |s|
    ensures i < k ==> Look(s).Blank? && k == Look(s).n
    ensures i >= k ==> Changed(s[k..], i - k)
  {
    hide Look, Closed, Erased, Spaces;
    ErasedIs(s);
    k := Look(s).n;
    At(if Look(s).Skip? then s[..k] else Spaces(k), Erased(s[k..]), i);
    assert s == s[..k] + s[k..];
    At(s[..k], s[k..], i);
  }

  lemma At<T>(a: seq<T>, b: seq<T>, i: nat)
    requires i < |a| + |b|
    ensures (a + b)[i] == if i < |a| then a[i] else b[i - |a|]
  {
  }

  lemma ErasedIs(s: string)
    requires s != "" && Closed(s)
    ensures !Look(s).Overrun? && 0 < Look(s).n <= |s| && Closed(s[Look(s).n..])
    ensures Erased(s) == (if Look(s).Skip? then s[..Look(s).n] else Spaces(Look(s).n)) + Erased(s[Look(s).n..])
  {
  }

  // ---------- No call is left ----------

  predicate IsCall(s: string) { s != "" && !Look(s).Skip? }

  predicate NoCalls(s: string) {
    forall p :: 0 <= p < |s| ==> !IsCall(s[p..])
  }

  // The second text is the first with some characters blanked.
  predicate Blanked(s: string, u: string) {
    |u| == |s| && forall i :: 0 <= i < |s| ==> u[i] == s[i] || u[i] == ' '
  }

  predicate NoSpace(p: string) { ' ' !in p }

  // Blanking makes no word appear.
  lemma NothingAppears(s: string, u: string, p: string)
    requires Blanked(s, u) && NoSpace(p) && Starts(u, p)
    ensures Starts(s, p)
  {
    forall i | 0 <= i < |p|
      ensures s[i] == p[i]
    {
      assert u[i] == p[i] && p[i] in p;
    }
  }

  lemma StillNoCall(s: string, u: string)
    requires Blanked(s, u) && s != "" && Look(s).Skip? && u[..Look(s).n] == s[..Look(s).n]
    ensures !IsCall(u)
  {
    assert NoSpace("tracy.") && NoSpace("Zone") && NoSpace("Message(") && NoSpace("End()") && NoSpace("Begin()");
    assert NoSpace("Text(") && NoSpace("Name(") && NoSpace("BeginN(") && NoSpace("BeginS(") && NoSpace("BeginNS(");
    if Starts(u, "tracy.") {
      NothingAppears(s, u, "tracy.");
      var s6, u6 := s[6..], u[6..];
      assert Blanked(s6, u6);
      if Starts(u6, "Zone") {
        NothingAppears(s6, u6, "Zone");
        if ZoneCall(u[10..]) { StillNoZone(s[10..], u[10..]); }
      } else if Starts(u6, "Message(") {
        NothingAppears(s6, u6, "Message(");
      }
    }
  }

  predicate ZoneCall(s: string) {
    || Starts(s, "End()") || Starts(s, "Begin()") || Starts(s, "Text(") || Starts(s, "Name(")
    || Starts(s, "BeginN(") || Starts(s, "BeginS(") || Starts(s, "BeginNS(")
  }

  lemma StillNoZone(s: string, u: string)
    requires Blanked(s, u) && ZoneCall(u)
    ensures ZoneCall(s)
  {
    if Starts(u, "End()") { NothingAppears(s, u, "End()"); }
    else if Starts(u, "Begin()") { NothingAppears(s, u, "Begin()"); }
    else if Starts(u, "Text(") { NothingAppears(s, u, "Text("); }
    else if Starts(u, "Name(") { NothingAppears(s, u, "Name("); }
    else if Starts(u, "BeginN(") { NothingAppears(s, u, "BeginN("); }
    else if Starts(u, "BeginS(") { NothingAppears(s, u, "BeginS("); }
    else { NothingAppears(s, u, "BeginNS("); }
  }

  // A call begins with a t, and a skipped word has a t only at its start.
  lemma CallBeginsWithT(s: string)
    requires IsCall(s)
    ensures s[0] == 't'
  {
    assert Starts(s, "tracy.");
  }

  lemma SkippedHasNoT(s: string, p: nat)
    requires s != "" && Look(s).Skip? && 0 < p < Look(s).n
    ensures s[p] != 't'
  {
    assert s[..6] == "tracy.";
    if Look(s).n == 10 {
      assert s[6..][..4] == "Zone";
      assert s[..10] == "tracy.Zone";
      assert s[p] == "tracy.Zone"[p];
    } else {
      assert s[p] == "tracy."[p];
    }
  }

  // Main result: afterwards there is no call anywhere in the text, in whatever way one starts to read.
  lemma {:induction false} NoCallsLeft(s: string)
    requires Closed(s)
    ensures NoCalls(Erased(s))
    decreases |s|
  {
    if s != "" {
      var u, m := Erased(s), Look(s);
      NoCallsLeft(s[m.n..]);
      forall p | 0 <= p < |u|
        ensures !IsCall(u[p..])
      {
        if p >= m.n {
          assert u[p..] == Erased(s[m.n..])[p - m.n..];
        } else if m.Blank? {
          if IsCall(u[p..]) { CallBeginsWithT(u[p..]); }
        } else if p == 0 {
          assert u[0..] == u;
          StillNoCall(s, u);
        } else {
          SkippedHasNoT(s, p);
          if IsCall(u[p..]) { CallBeginsWithT(u[p..]); }
        }
      }
    }
  }

  // ---------- What a call is ----------

  // The calls without arguments as a whole, and the beginnings of the others.
  const WHOLE := ["tracy.ZoneEnd()", "tracy.ZoneBegin()"]
  const OPENING := ["tracy.ZoneText(", "tracy.ZoneName(", "tracy.ZoneBeginN(", "tracy.ZoneBeginS(",
                    "tracy.ZoneBeginNS(", "tracy.Message("]

  lemma StartsWithBoth(s: string, p: string, q: string)
    ensures Starts(s, p + q) <==> Starts(s, p) && Starts(s[|p|..], q)
  {
    if |p| + |q| <= |s| {
      assert s[..|p| + |q|] == s[..|p|] + s[|p|..][..|q|];
      if Starts(s, p + q) {
        assert s[..|p|] == (p + q)[..|p|] == p;
        assert s[|p|..][..|q|] == (p + q)[|p|..] == q;
      }
    }
  }

  lemma StartsWithZone(s: string, word: string)
    ensures Starts(s, "tracy.Zone" + word) <==>
              Starts(s, "tracy.") && Starts(s[6..], "Zone") && Starts(s[10..], word)
  {
    assert "tracy." + "Zone" == "tracy.Zone";
    StartsWithBoth(s, "tracy.Zone", word);
    StartsWithBoth(s, "tracy.", "Zone");
  }

  // Which zone calls begin a text, in the order in which they are tried.
  lemma ZoneWords(s: string)
    ensures "tracy.Zone" + "End()" == WHOLE[0] && "tracy.Zone" + "Begin()" == WHOLE[1]
    ensures "tracy.Zone" + "Text(" == OPENING[0] && "tracy.Zone" + "Name(" == OPENING[1]
    ensures "tracy.Zone" + "BeginN(" == OPENING[2] && "tracy.Zone" + "BeginS(" == OPENING[3]
    ensures "tracy.Zone" + "BeginNS(" == OPENING[4] && "tracy." + "Message(" == OPENING[5]
  {
  }

  lemma ZoneLook(s: string, word: string)
    requires Starts(s, "tracy.Zone" + word)
    ensures |s| >= 10 + |word| && Starts(s[10..], word) && Look(s) == LookZone(s)
  {
    StartsWithZone(s, word);
    assert |"tracy.Zone" + word| == 10 + |word|;
    hide LookZone;
  }

  predicate ZoneWord(p: string) { p in ["End()", "Begin()", "Text(", "Name(", "BeginN(", "BeginS(", "BeginNS("] }

  // No two of the words that are tried after `tracy.Zone` begin the same text.
  lemma OnlyOne(s: string, p: string)
    requires ZoneWord(p) && Starts(s, p)
    ensures forall q :: ZoneWord(q) && q != p ==> !Starts(s, q)
  {
    forall q | ZoneWord(q) && q != p
      ensures !Starts(s, q)
    {
      assert p[0] != q[0] || p[5] != q[5] || p[6] != q[6];
    }
  }

  lemma ZoneLooks(s: string, p: string)
    requires |s| >= 10 + |p| && ZoneWord(p) && Starts(s[10..], p)
    ensures LookZone(s) == if p in ["End()", "Begin()"] then Blank(10 + |p|) else Call(s, 10 + |p|)
  {
    OnlyOne(s[10..], p);
    assert forall q :: q in ["End()", "Begin()", "Text(", "Name(", "BeginN(", "BeginS(", "BeginNS("] ==> ZoneWord(q);
    assert p == "End()" || p == "Begin()" || p == "Text(" || p == "Name(" || p == "BeginN(" || p == "BeginS("
           || p == "BeginNS(";
    hide Starts, Call;
  }

  lemma WholeIs(s: string, w: string)
    requires s != "" && w in WHOLE && Starts(s, w)
    ensures Look(s) == Blank(|w|)
  {
    ZoneWords(s);
    var p := if w == WHOLE[0] then "End()" else "Begin()";
    assert w == "tracy.Zone" + p;
    hide Starts, Look, LookZone;
    ZoneLook(s, p);
    ZoneLooks(s, p);
  }

  lemma OpeningIs(s: string, w: string)
    requires s != "" && w in OPENING && Starts(s, w)
    ensures |w| <= |s| && Look(s) == Call(s, |w|)
  {
    ZoneWords(s);
    if w == OPENING[5] {
      MessageLook(s);
    } else {
      var p := if w == OPENING[0] then "Text(" else if w == OPENING[1] then "Name("
               else if w == OPENING[2] then "BeginN(" else if w == OPENING[3] then "BeginS(" else "BeginNS(";
      assert w == "tracy.Zone" + p;
      hide Starts, Look, LookZone, Call;
      ZoneLook(s, p);
      ZoneLooks(s, p);
    }
  }

  lemma MessageLook(s: string)
    requires Starts(s, "tracy." + "Message(")
    ensures |s| >= 14 && Look(s) == Call(s, 14)
  {
    StartsWithBoth(s, "tracy.", "Message(");
    assert s[6..][0] == 'M';
    hide Call;
  }

  // Main result: the calls are exactly the texts that begin with one of those words.
  lemma CallIff(s: string)
    requires s != ""
    ensures IsCall(s) <==> exists w :: w in WHOLE + OPENING && Starts(s, w)
  {
    ZoneWords(s);
    StartsWithBoth(s, "tracy.", "Message(");
    StartsWithZone(s, "End()");
    StartsWithZone(s, "Begin()");
    StartsWithZone(s, "Text(");
    StartsWithZone(s, "Name(");
    StartsWithZone(s, "BeginN(");
    StartsWithZone(s, "BeginS(");
    StartsWithZone(s, "BeginNS(");
    assert forall w :: w in WHOLE + OPENING <==> w in WHOLE || w in OPENING;
    hide Starts;
    if exists w :: w in WHOLE + OPENING && Starts(s, w) {
      var w :| w in WHOLE + OPENING && Starts(s, w);
      if w in WHOLE { WholeIs(s, w); } else { OpeningIs(s, w); }
    } else {
      assert WHOLE[0] in WHOLE && WHOLE[1] in WHOLE;
      assert forall k :: 0 <= k < |OPENING| ==> OPENING[k] in OPENING;
    }
  }

  lemma {:induction false} BalanceOfBoth(a: string, b: string)
    ensures Balance(a + b) == Balance(a) + Balance(b)
  {
    if a == "" {
      assert a + b == b;
    } else {
      assert (a + b)[1..] == a[1..] + b;
      BalanceOfBoth(a[1..], b);
    }
  }

  lemma {:induction false} NoParentheses(s: string)
    requires '(' !in s && ')' !in s
    ensures Balance(s) == 0
  {
    if s != "" { NoParentheses(s[1..]); }
  }

  lemma OpensAtLast(front: string)
    requires '(' !in front && ')' !in front
    ensures Balance(front + "(") == 1
  {
    NoParentheses(front);
    BalanceOfBoth(front, "(");
  }

  // The words open one parenthesis, with their last character.
  lemma OpensOne(w: string)
    requires w in OPENING
    ensures Balance(w) == 1
  {
    hide Balance;
    var front := if w == OPENING[0] then "tracy.ZoneText" else if w == OPENING[1] then "tracy.ZoneName"
                 else if w == OPENING[2] then "tracy.ZoneBeginN" else if w == OPENING[3] then "tracy.ZoneBeginS"
                 else if w == OPENING[4] then "tracy.ZoneBeginNS" else "tracy.Message";
    assert w == front + "(";
    OpensAtLast(front);
  }

  lemma BalancesAtEnd(s: string, k: nat, m: nat)
    requires k <= m <= |s| && Balance(s[..k]) == 1 && FindEnd(s[k..], 1).Some? && m <= k + FindEnd(s[k..], 1).value
    ensures Balance(s[..m]) >= 0 && (Balance(s[..m]) == 0 <==> m == k + FindEnd(s[k..], 1).value)
  {
    hide Balance, FindEnd;
    EndIsFirst(s[k..], 1, m - k);
    assert s[..m] == s[..k] + s[k..][..m - k];
    BalanceOfBoth(s[..k], s[k..][..m - k]);
  }

  // Main result: a call ends where the parentheses are in balance for the first time after its word.
  lemma EndOfCall(s: string, w: string)
    requires s != "" && w in OPENING && Starts(s, w) && Look(s).Blank?
    ensures var n := Look(s).n;
            |w| < n <= |s| && Balance(s[..n]) == 0 && forall m :: |w| <= m < n ==> Balance(s[..m]) > 0
  {
    assert s[..|w|] == w;
    hide Look, Balance, FindEnd, Starts;
    OpeningIs(s, w);
    OpensOne(w);
    var n := Look(s).n;
    forall m | |w| <= m <= n
      ensures Balance(s[..m]) >= 0 && (Balance(s[..m]) == 0 <==> m == n)
    {
      BalancesAtEnd(s, |w|, m);
    }
  }

  // The position p is not inside a call that begins before it.
  predicate Outermost(s: string, p: nat) {
    forall a :: 0 <= a < p && a < |s| && IsCall(s[a..]) ==> Look(s[a..]).Blank? && a + Look(s[a..]).n <= p
  }

  lemma OutermostAfter(s: string, n: nat, p: nat)
    requires n <= p < |s| && Outermost(s, p)
    ensures Outermost(s[n..], p - n)
  {
    hide IsCall, Look;
    forall a | 0 <= a < p - n && a < |s[n..]| && IsCall(s[n..][a..])
      ensures Look(s[n..][a..]).Blank? && a + Look(s[n..][a..]).n <= p - n
    {
      DropDrop(s, n, a);
    }
  }

  // Where the eraser gets from the start, if a call that is not inside another one comes later.
  lemma GetsThere(s: string, p: nat)
    requires Closed(s) && 0 < p < |s| && IsCall(s[p..]) && Outermost(s, p)
    ensures !Look(s).Overrun? && 0 < Look(s).n <= p && Closed(s[Look(s).n..])
    ensures Erased(s) == (if Look(s).Skip? then s[..Look(s).n] else Spaces(Look(s).n)) + Erased(s[Look(s).n..])
  {
    ErasedIs(s);
    DropDrop(s, 0, 0);
    if Look(s).Skip? && p < Look(s).n { NoCallWithin(s, p); }
    hide Look, Erased, Closed;
    assert s[0..] == s;
  }

  predicate BlankedAt(s: string, p: nat) {
    Closed(s) && p < |s| && Look(s[p..]).Blank?
    && var n := Look(s[p..]).n;
    p + n <= |s| && Erased(s)[p..p + n] == Spaces(n)
  }

  lemma SliceBehind<T>(front: seq<T>, rest: seq<T>, i: nat, j: nat)
    requires i <= j <= |rest|
    ensures (front + rest)[|front| + i..|front| + j] == rest[i..j]
  {
  }

  lemma BlankedLater(s: string, m: nat, p: nat, front: string)
    requires Closed(s) && m <= p < |s| && Closed(s[m..]) && |front| == m && Erased(s) == front + Erased(s[m..])
    requires BlankedAt(s[m..], p - m)
    ensures BlankedAt(s, p)
  {
    hide Look, Closed;
    DropDrop(s, m, p - m);
    var n, rest := Look(s[p..]).n, Erased(s[m..]);
    assert |rest| == |s[m..]| && p - m + n <= |rest| && rest[p - m..p - m + n] == Spaces(n);
    SliceBehind(front, rest, p - m, p - m + n);
    hide Erased, Spaces;
  }

  lemma BlankedFirst(s: string)
    requires Closed(s) && IsCall(s)
    ensures BlankedAt(s, 0)
  {
    ErasedIs(s);
    DropDrop(s, 0, 0);
    hide Look, Erased, Closed;
  }

  // Main result: every call that is not inside another one is blanked from its first character to its
  // last.
  lemma {:induction false} CallBlanked(s: string, p: nat)
    requires Closed(s) && p < |s| && IsCall(s[p..]) && Outermost(s, p)
    ensures BlankedAt(s, p)
    decreases |s|
  {
    DropDrop(s, 0, 0);
    hide Look, Erased, BlankedAt;
    if p == 0 {
      BlankedFirst(s);
    } else {
      GetsThere(s, p);
      var m := Look(s).n;
      OutermostAfter(s, m, p);
      DropDrop(s, m, p - m);
      hide Closed, IsCall, Outermost;
      CallBlanked(s[m..], p - m);
      BlankedLater(s, m, p, if Look(s).Skip? then s[..m] else Spaces(m));
    }
  }

  lemma NoCallWithin(s: string, p: nat)
    requires s != "" && Look(s).Skip? && 0 < p < Look(s).n
    ensures p < |s| && !IsCall(s[p..])
  {
    SkippedHasNoT(s, p);
    if IsCall(s[p..]) { CallBeginsWithT(s[p..]); }
  }

  // A text without calls is left as it is.
  lemma {:induction false} NothingToErase(s: string)
    requires NoCalls(s)
    ensures Closed(s) && Erased(s) == s
    decreases |s|
  {
    if s != "" {
      DropDrop(s, 0, 0);
      assert !IsCall(s[0..]);
      var n := Look(s).n;
      NoCallsAfter(s, n);
      NothingToErase(s[n..]);
      hide Look, NoCalls, IsCall;
      assert s == s[..n] + s[n..];
    }
  }

  lemma NoCallsAfter(s: string, n: nat)
    requires NoCalls(s) && n <= |s|
    ensures NoCalls(s[n..])
  {
    hide IsCall;
    forall p | 0 <= p < |s[n..]|
      ensures !IsCall(s[n..][p..])
    {
      DropDrop(s, n, p);
    }
  }

  // Erasing twice is erasing once.
  lemma Idempotent(s: string)
    requires Closed(s)
    ensures Closed(Erased(s)) && Erased(Erased(s)) == Erased(s)
  {
    NoCallsLeft(s);
    NothingToErase(Erased(s));
  }

  // ---------- In place ----------

  // A text ends before its first NUL.
  predicate IsText(s: seq<char>, n: nat) {
    n < |s| && s[n] == '\0' && forall i :: 0 <= i < n ==> s[i] != '\0'
  }

  // strncmp for a word without NUL: it stops at the end of the text at the latest.
  method Matches(script: array<char>, at: nat, p: string, ghost n: nat) returns (yes: bool)
    requires at <= n < script.Length && script[n] == '\0' && '\0' !in p
    ensures yes == Starts(script[at..n], p)
  {
    var k := 0;
    while k < |p|
      invariant 0 <= k <= |p| && at + k <= n
      invariant script[at..at + k] == p[..k]
    {
      if script[at + k] != p[k] {
        assert at + k < n ==> script[at..n][k] != p[k];
        assert p[k] in p;
        return false;
      }
      assert p[k] in p;
      k := k + 1;
    }
    assert script[at..n][..k] == script[at..at + k];
    return true;
  }

  // Requires what the source takes for granted: that the parentheses close before the text ends.
  method FindEndInPlace(script: array<char>, at: nat, ghost n: nat) returns (end: nat)
    requires at <= n <= script.Length && FindEnd(script[at..n], 1).Some?
    ensures end <= n && FindEnd(script[at..n], 1) == Some(end - at)
  {
    var cnt := 1;
    end := at;
    while cnt != 0
      invariant at <= end <= n && cnt >= 0
      invariant FindEnd(script[end..n], cnt).Some?
      invariant FindEnd(script[at..n], 1).value == FindEnd(script[end..n], cnt).value + (end - at)
      decreases n - end
    {
      assert script[end..n][1..] == script[end + 1..n];
      if script[end] == '(' {
        cnt := cnt + 1;
      } else if script[end] == ')' {
        cnt := cnt - 1;
      }
      end := end + 1;
    }
  }

  method LuaRemove(script: array<char>, ghost n: nat)
    requires IsText(script[..], n) && Closed(script[..n])
    modifies script
    ensures script[..n] == Erased(old(script[..n]))
    ensures script[n..] == old(script[n..])
  {
    var pos := 0;
    ghost var text := script[..n];
    assert script[0..n] == text;
    hide Closed, Erased;
    while script[pos] != '\0'
      invariant 0 <= pos <= n && script[n..] == old(script[n..])
      invariant script[pos..n] == text[pos..] && Closed(text[pos..])
      invariant script[..pos] + Erased(text[pos..]) == Erased(text)
      decreases n - pos
    {
      InText(script, pos, n, text);
      ghost var before := script[..pos];
      var next := EraseOne(script, pos, n);
      assert text[next..] == text[pos..][next - pos..];
      assert script[..next] == before + script[pos..next];
      Joined(before, script[pos..next], Erased(text[next..]));
      pos := next;
    }
    InText(script, pos, n, text);
    assert text[n..] == "" && script[..n] + Erased(text[n..]) == script[..n];
  }

  lemma Joined(a: string, b: string, c: string)
    ensures a + b + c == a + (b + c)
  {
  }

  // Before its end the text has no NUL.
  lemma InText(script: array<char>, pos: nat, n: nat, text: string)
    requires pos <= n < script.Length && |text| == n && (forall i :: 0 <= i < n ==> text[i] != '\0')
    requires script[pos..n] == text[pos..] && script[n] == '\0'
    ensures script[pos] == '\0' <==> pos == n
  {
    if pos < n { assert script[pos] == script[pos..n][0] == text[pos]; }
  }

  // One turn of the loop.
  method EraseOne(script: array<char>, pos: nat, ghost n: nat) returns (next: nat)
    requires pos < n < script.Length && script[n] == '\0' && Closed(script[pos..n])
    modifies script
    ensures pos < next <= n && script[n..] == old(script[n..]) && script[..pos] == old(script[..pos])
    ensures script[next..n] == old(script[pos..n])[next - pos..] && Closed(old(script[pos..n])[next - pos..])
    ensures script[pos..next] + Erased(old(script[pos..n])[next - pos..]) == Erased(old(script[pos..n]))
  {
    ghost var s := script[pos..n];
    ErasedIs(s);
    hide Look, Closed, Erased;
    var m := Decide(script, pos, n);
    next := pos + m.n;
    assert script[next..n] == s[m.n..] && script[pos..next] == s[..m.n];
    if m.Blank? {
      forall i | pos <= i < next {
        script[i] := ' ';
      }
      assert script[pos..next] == Spaces(m.n);
    }
    assert script[next..n] == s[m.n..];
  }

  // Which of the source's branches is taken.
  method Decide(script: array<char>, pos: nat, ghost n: nat) returns (m: Move)
    requires pos < n < script.Length && script[n] == '\0' && Closed(script[pos..n])
    ensures m == Look(script[pos..n]) && !m.Overrun?
  {
    ghost var s := script[pos..n];
    var tracy := Matches(script, pos, "tracy.", n);
    if !tracy { return Skip(1); }
    assert script[pos + 6..n] == s[6..];
    var zone := Matches(script, pos + 6, "Zone", n);
    if !zone {
      var message := Matches(script, pos + 6, "Message(", n);
      if !message { return Skip(6); }
      assert script[pos + 14..n] == s[14..];
      var end := FindEndInPlace(script, pos + 14, n);
      return Blank(end - pos);
    }
    m := DecideZone(script, pos, n);
  }

  method DecideZone(script: array<char>, pos: nat, ghost n: nat) returns (m: Move)
    requires pos + 10 <= n < script.Length && script[n] == '\0' && !LookZone(script[pos..n]).Overrun?
    ensures m == LookZone(script[pos..n])
  {
    ghost var s := script[pos..n];
    assert script[pos + 10..n] == s[10..];
    var word := Matches(script, pos + 10, "End()", n);
    if word { return Blank(15); }
    word := Matches(script, pos + 10, "Begin()", n);
    if word { return Blank(17); }
    var skip := 0;
    word := Matches(script, pos + 10, "Text(", n);
    if word { skip := 15; }
    if skip == 0 {
      word := Matches(script, pos + 10, "Name(", n);
      if word { skip := 15; }
    }
    if skip == 0 {
      word := Matches(script, pos + 10, "BeginN(", n);
      if word { skip := 17; }
    }
    if skip == 0 {
      word := Matches(script, pos + 10, "BeginS(", n);
      if word { skip := 17; }
    }
    if skip == 0 {
      word := Matches(script, pos + 10, "BeginNS(", n);
      if !word { return Skip(10); }
      skip := 18;
    }
    assert pos + skip <= n && LookZone(s) == Call(s, skip);
    assert script[pos + skip..n] == s[skip..];
    var end := FindEndInPlace(script, pos + skip, n);
    return Blank(end - pos);
  }
}
