/** The game-state tracker: it counts registered and defeated enemies, keeps
    the progress text up to date and latches one end of the game, won or lost.
    `Tracker` is the tracker's state as a value, with one pure transition per
    public operation; the `GameManager` class holds the same state in fields
    and its methods are proved to follow those transitions. */
module Game {

  // ---------------------------------------------------------------- text

  predicate IsDigit(c: char)
  {
    '0' <= c <= '9'
  }

  predicate AllDigits(s: string)
  {
    forall i :: 0 <= i < |s| ==> IsDigit(s[i])
  }

  function DigitChar(d: nat): (c: char)
    requires d < 10
    ensures IsDigit(c) && c as int - '0' as int == d
  {
    ('0' as int + d) as char
  }

  /** The decimal rendering that string interpolation gives a non-negative `int`. */
  function NatToString(n: nat): (s: string)
    ensures |s| >= 1 && AllDigits(s)
    ensures s[0] == '0' ==> n == 0
    decreases n
  {
    if n < 10 then [DigitChar(n)] else NatToString(n / 10) + [DigitChar(n % 10)]
  }

  /** The number a string of decimal digits denotes. */
  function DecimalValue(s: string): nat
    requires AllDigits(s)
    decreases |s|
  {
    if s == [] then 0
    else DecimalValue(s[..|s| - 1]) * 10 + (s[|s| - 1] as int - '0' as int)
  }

  lemma {:induction false} DecimalValueOfNatToString(n: nat)
    ensures DecimalValue(NatToString(n)) == n
    decreases n
  {
    if n >= 10 {
      var s := NatToString(n);
      assert s[..|s| - 1] == NatToString(n / 10);
      DecimalValueOfNatToString(n / 10);
    }
  }

  const ProgressPrefix := "Enemies Defeated: "

  /** `$"Enemies Defeated: {defeatedEnemies}/{totalEnemies}"`. */
  function ProgressText(defeated: nat, total: nat): (r: string)
    ensures |r| >= |ProgressPrefix| + 3 && r[..|ProgressPrefix|] == ProgressPrefix
  {
    ProgressPrefix + NatToString(defeated) + "/" + NatToString(total)
  }

  lemma {:induction false} SplitAtSlash(a1: string, b1: string, a2: string, b2: string)
    requires AllDigits(a1) && AllDigits(a2)
    requires a1 + "/" + b1 == a2 + "/" + b2
    ensures a1 == a2 && b1 == b2
  {
    var s1, s2 := a1 + "/" + b1, a2 + "/" + b2;
    if |a1| < |a2| {
      SlashAt(a1, b1);
      assert false;
    } else if |a2| < |a1| {
      SlashAt(a2, b2);
      assert false;
    } else {
      assert a1 == s1[..|a1|] && a2 == s2[..|a2|];
      assert b1 == s1[|a1| + 1..] && b2 == s2[|a2| + 1..];
    }
  }

  lemma SlashAt(a: string, b: string)
    ensures (a + "/" + b)[|a|] == '/'
  {
  }

  /** The progress text determines both counters. */
  lemma ProgressTextInjective(d1: nat, t1: nat, d2: nat, t2: nat)
    requires ProgressText(d1, t1) == ProgressText(d2, t2)
    ensures d1 == d2 && t1 == t2
  {
    var p := |ProgressPrefix|;
    var r1 := NatToString(d1) + "/" + NatToString(t1);
    var r2 := NatToString(d2) + "/" + NatToString(t2);
    assert ProgressText(d1, t1) == ProgressPrefix + r1;
    assert ProgressText(d2, t2) == ProgressPrefix + r2;
    assert r1 == ProgressText(d1, t1)[p..];
    assert r2 == ProgressText(d2, t2)[p..];
    SplitAtSlash(NatToString(d1), NatToString(t1), NatToString(d2), NatToString(t2));
    DecimalValueOfNatToString(d1);
    DecimalValueOfNatToString(d2);
    DecimalValueOfNatToString(t1);
    DecimalValueOfNatToString(t2);
  }

  // ---------------------------------------------------------------- state

  /** The tracker's fields plus what it has done to the engine: which end
      screen is active, how many times an end screen was activated, the time
      scale it last set and the progress text it last wrote. */
  datatype Tracker = Tracker(
    total: nat,
    defeated: nat,
    ended: bool,
    winShown: bool,
    loseShown: bool,
    screenActivations: nat,
    timeScale: real,
    progress: string)

  function Initial(text: string): Tracker
  {
    Tracker(0, 0, false, false, false, 0, 1.0, text)
  }

  /** What the latch guarantees about the end of the game. */
  ghost predicate Consistent(t: Tracker)
  {
    && (t.ended <==> t.winShown || t.loseShown)
    && !(t.winShown && t.loseShown)
    && t.screenActivations == (if t.ended then 1 else 0)
    && (t.ended ==> t.timeScale == 0.0)
  }

  /** `WinGame`: latch, show the win screen, freeze time. */
  function Win(t: Tracker): (r: Tracker)
    ensures r.ended && r.winShown && r.loseShown == t.loseShown && r.timeScale == 0.0
    ensures r.screenActivations == t.screenActivations + 1
    ensures r.total == t.total && r.defeated == t.defeated && r.progress == t.progress
  {
    t.(ended := true, winShown := true, screenActivations := t.screenActivations + 1, timeScale := 0.0)
  }

  /** `LoseGame`: latch, show the lose screen, freeze time. */
  function Lose(t: Tracker): (r: Tracker)
    ensures r.ended && r.loseShown && r.winShown == t.winShown && r.timeScale == 0.0
    ensures r.screenActivations == t.screenActivations + 1
    ensures r.total == t.total && r.defeated == t.defeated && r.progress == t.progress
  {
    t.(ended := true, loseShown := true, screenActivations := t.screenActivations + 1, timeScale := 0.0)
  }

  function Register(t: Tracker): (r: Tracker)
    ensures r.total == t.total + 1
    ensures r.defeated == t.defeated && r.ended == t.ended
    ensures r.winShown == t.winShown && r.loseShown == t.loseShown
    ensures r.screenActivations == t.screenActivations && r.timeScale == t.timeScale
    ensures r.progress == ProgressText(r.defeated, r.total)
  {
    t.(total := t.total + 1, progress := ProgressText(t.defeated, t.total + 1))
  }

  function Defeat(t: Tracker): (r: Tracker)
    ensures r.defeated == t.defeated + 1 && r.total == t.total
    ensures r.progress == ProgressText(r.defeated, r.total)
    ensures r.ended <==> t.ended || r.defeated >= r.total
    ensures r.winShown <==> t.winShown || (!t.ended && r.defeated >= r.total)
    ensures r.loseShown == t.loseShown
    ensures t.ended ==> r.screenActivations == t.screenActivations && r.timeScale == t.timeScale
    ensures !t.ended && r.ended ==> r.screenActivations == t.screenActivations + 1 && r.timeScale == 0.0
  {
    var t1 := t.(defeated := t.defeated + 1, progress := ProgressText(t.defeated + 1, t.total));
    if t1.defeated >= t1.total && !t1.ended then Win(t1) else t1
  }

  function Died(t: Tracker): (r: Tracker)
    ensures t.ended ==> r == t
    ensures !t.ended ==> r.ended && r.loseShown && r.winShown == t.winShown && r.timeScale == 0.0
    ensures !t.ended ==> r.screenActivations == t.screenActivations + 1
    ensures r.total == t.total && r.defeated == t.defeated && r.progress == t.progress
  {
    if !t.ended then Lose(t) else t
  }

  lemma ConsistentInitial(text: string)
    ensures Consistent(Initial(text))
  {
  }

  // ---------------------------------------------------------------- runs

  /** A call into the tracker from the rest of the game. */
  datatype Event = RegisterEnemy | EnemyDefeated | PlayerDied

  function Apply(t: Tracker, e: Event): Tracker
  {
    match e
    case RegisterEnemy => Register(t)
    case EnemyDefeated => Defeat(t)
    case PlayerDied => Died(t)
  }

  function Run(t: Tracker, es: seq<Event>): Tracker
    decreases |es|
  {
    if es == [] then t else Run(Apply(t, es[0]), es[1..])
  }

  /** Every sequence of calls keeps the end of the game consistent: at most
      one end screen, activated at most once, and time frozen once ended. */
  lemma {:induction false} RunKeepsConsistent(t: Tracker, es: seq<Event>)
    requires Consistent(t)
    ensures Consistent(Run(t, es))
    ensures Run(t, es).screenActivations <= 1
    decreases |es|
  {
    if es != [] {
      RunKeepsConsistent(Apply(t, es[0]), es[1..]);
    }
  }

  /** `gameEnded` is a latch, and the outcome it latched never changes. */
  lemma {:induction false} EndIsLatched(t: Tracker, es: seq<Event>)
    requires t.ended
    ensures Run(t, es).ended
    ensures Run(t, es).winShown == t.winShown && Run(t, es).loseShown == t.loseShown
    ensures Run(t, es).screenActivations == t.screenActivations
    ensures Run(t, es).timeScale == t.timeScale
    decreases |es|
  {
    if es != [] {
      EndIsLatched(Apply(t, es[0]), es[1..]);
    }
  }

  /** Counters only ever grow by the calls that name them: the final totals
      are the initial ones plus the number of register and defeat calls. */
  function CountOf(es: seq<Event>, e: Event): nat
    decreases |es|
  {
    if es == [] then 0 else (if es[0] == e then 1 else 0) + CountOf(es[1..], e)
  }

  lemma {:induction false} RunCounts(t: Tracker, es: seq<Event>)
    ensures Run(t, es).total == t.total + CountOf(es, RegisterEnemy)
    ensures Run(t, es).defeated == t.defeated + CountOf(es, EnemyDefeated)
    decreases |es|
  {
    if es != [] {
      RunCounts(Apply(t, es[0]), es[1..]);
    }
  }

  // ---------------------------------------------------------------- class

  class GameManager {
    var totalEnemies: nat
    var defeatedEnemies: nat
    var gameEnded: bool
    var winScreenActive: bool
    var loseScreenActive: bool
    var screenActivations: nat
    var timeScale: real
    var enemyProgressText: string

    function State(): Tracker
      reads this
    {
      Tracker(totalEnemies, defeatedEnemies, gameEnded, winScreenActive, loseScreenActive,
              screenActivations, timeScale, enemyProgressText)
    }

    ghost predicate Valid()
      reads this
    {
      Consistent(State())
    }

    /** The field initialisers; `text` is whatever the progress label shows
        in the scene before the first update. */
    constructor (text: string)
      ensures Valid() && State() == Initial(text)
    {
      totalEnemies, defeatedEnemies := 0, 0;
      gameEnded, winScreenActive, loseScreenActive := false, false, false;
      screenActivations, timeScale := 0, 1.0;
      enemyProgressText := text;
    }

    method RegisterEnemy()
      requires Valid()
      modifies this
      ensures Valid()
      ensures totalEnemies == old(totalEnemies) + 1
      ensures defeatedEnemies == old(defeatedEnemies) && gameEnded == old(gameEnded)
      ensures enemyProgressText == ProgressText(defeatedEnemies, totalEnemies)
      ensures State() == Register(old(State()))
    {
      totalEnemies := totalEnemies + 1;
      UpdateEnemyProgress();
    }

    method EnemyDefeated()
      requires Valid()
      modifies this
      ensures Valid()
      ensures defeatedEnemies == old(defeatedEnemies) + 1 && totalEnemies == old(totalEnemies)
      ensures enemyProgressText == ProgressText(defeatedEnemies, totalEnemies)
      ensures winScreenActive && !old(winScreenActive) <==> !old(gameEnded) && defeatedEnemies >= totalEnemies
      ensures State() == Defeat(old(State()))
    {
      defeatedEnemies := defeatedEnemies + 1;
      UpdateEnemyProgress();
      if defeatedEnemies >= totalEnemies && !gameEnded {
        WinGame();
      }
    }

    method UpdateEnemyProgress()
      modifies this
      ensures enemyProgressText == ProgressText(defeatedEnemies, totalEnemies)
      ensures State() == old(State()).(progress := enemyProgressText)
    {
      enemyProgressText := ProgressText(defeatedEnemies, totalEnemies);
    }

    method PlayerDied()
      requires Valid()
      modifies this
      ensures Valid()
      ensures old(gameEnded) ==> State() == old(State())
      ensures State() == Died(old(State()))
    {
      if !gameEnded {
        LoseGame();
      }
    }

    method WinGame()
      modifies this
      ensures State() == Win(old(State()))
    {
      gameEnded := true;
      winScreenActive := true;
      screenActivations := screenActivations + 1;
      timeScale := 0.0;
    }

    method LoseGame()
      modifies this
      ensures State() == Lose(old(State()))
    {
      gameEnded := true;
      loseScreenActive := true;
      screenActivations := screenActivations + 1;
      timeScale := 0.0;
    }
  }
}
