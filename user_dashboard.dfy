/**
 * The two pieces of logic in the user dashboard: the class-name joiner `cn`
 * (drop falsy arguments, join the rest with one space) and the choice of the
 * exercise list shown on the "fitme" page.
 */
module UserDashboard {

  // ---------------------------------------------------------------------------
  // cn: the class-name joiner
  // ---------------------------------------------------------------------------

  /** The values the dashboard passes to `cn`: strings, booleans, null and undefined. */
  datatype ClassArg = Undefined | Null | Bool(b: bool) | Str(s: string)

  /** JavaScript truthiness of an argument: `undefined`, `null`, `false` and `""` are falsy. */
  predicate Truthy(a: ClassArg)
  {
    match a
    case Undefined => false
    case Null => false
    case Bool(b) => b
    case Str(s) => s != ""
  }

  /** The text `join` writes for a surviving argument. */
  function Text(a: ClassArg): (t: string)
    requires Truthy(a)
    ensures t != ""
  {
    match a
    case Bool(_) => "true"
    case Str(s) => s
  }

  /** The texts of the truthy arguments, in argument order (`filter(Boolean)`). */
  function Survivors(args: seq<ClassArg>): (ws: seq<string>)
    ensures |ws| <= |args|
    ensures forall w :: w in ws ==> w != ""
    ensures forall w :: w in ws ==> exists a :: a in args && Truthy(a) && Text(a) == w
    ensures forall a :: a in args && Truthy(a) ==> Text(a) in ws
    ensures ws == [] <==> forall k :: 0 <= k < |args| ==> !Truthy(args[k])
  {
    if |args| == 0 then []
    else
      var rest := Survivors(args[1..]);
      assert forall a :: a in args[1..] ==> a in args;
      assert forall a :: a in args ==> a == args[0] || a in args[1..];
      assert forall k :: 1 <= k < |args| ==> args[k] == args[1..][k - 1];
      if Truthy(args[0]) then [Text(args[0])] + rest else rest
  }

  /** `join(" ")`: the words with one space between consecutive ones. */
  function Join(ws: seq<string>): string
  {
    if |ws| == 0 then ""
    else if |ws| == 1 then ws[0]
    else ws[0] + " " + Join(ws[1..])
  }

  /** `cn(...args)`: the truthy arguments joined by single spaces. */
  function Cn(args: seq<ClassArg>): string
  {
    Join(Survivors(args))
  }

  /** Filtering distributes over concatenation: survivors keep their relative order. */
  lemma {:induction false} SurvivorsAppend(x: seq<ClassArg>, y: seq<ClassArg>)
    ensures Survivors(x + y) == Survivors(x) + Survivors(y)
  {
    if |x| > 0 {
      assert (x + y)[1..] == x[1..] + y;
      SurvivorsAppend(x[1..], y);
    } else {
      assert x + y == y;
    }
  }

  /** Joining two non-empty word lists puts exactly one space between their joins. */
  lemma {:induction false} JoinAppend(x: seq<string>, y: seq<string>)
    requires |x| > 0 && |y| > 0
    ensures Join(x + y) == Join(x) + " " + Join(y)
  {
    if |x| == 1 {
      assert (x + y)[1..] == y;
    } else {
      assert (x + y)[1..] == x[1..] + y;
      JoinAppend(x[1..], y);
    }
  }

  /** `cn` yields the empty string exactly when every argument is falsy. */
  lemma CnEmpty(args: seq<ClassArg>)
    ensures Cn(args) == "" <==> forall k :: 0 <= k < |args| ==> !Truthy(args[k])
  {
    JoinLength(Survivors(args));
  }

  /** With exactly one truthy argument, `cn` returns that argument's text unchanged. */
  lemma CnSingle(args: seq<ClassArg>, i: nat)
    requires i < |args| && Truthy(args[i])
    requires forall k :: 0 <= k < |args| && k != i ==> !Truthy(args[k])
    ensures Cn(args) == Text(args[i])
  {
    var pre, post := args[..i], args[i + 1..];
    assert args == pre + [args[i]] + post;
    forall k | 0 <= k < |pre| ensures !Truthy(pre[k]) {
      assert pre[k] == args[k];
    }
    forall k | 0 <= k < |post| ensures !Truthy(post[k]) {
      assert post[k] == args[i + 1 + k];
    }
    SurvivorsAppend(pre + [args[i]], post);
    SurvivorsAppend(pre, [args[i]]);
    assert Survivors([args[i]]) == [Text(args[i])] by { assert [args[i]][1..] == []; }
  }

  /**
   * `cn` over a concatenation is `cn` of the two halves' results: one space
   * between them when both are non-empty, and no stray space otherwise.
   */
  lemma CnAppend(x: seq<ClassArg>, y: seq<ClassArg>)
    ensures Cn(x + y) == Cn([Str(Cn(x)), Str(Cn(y))])
  {
    var sx, sy := Survivors(x), Survivors(y);
    SurvivorsAppend(x, y);
    JoinLength(sx);
    JoinLength(sy);
    SurvivorsOfPair(Cn(x), Cn(y));
    var jx, jy := Join(sx), Join(sy);
    assert jx == "" <==> sx == [];
    assert jy == "" <==> sy == [];
    if sx == [] {
      assert sx + sy == sy;
      assert Cn([Str(jx), Str(jy)]) == Join(if jy != "" then [jy] else []);
    } else if sy == [] {
      assert sx + sy == sx;
      assert Cn([Str(jx), Str(jy)]) == Join([jx]);
    } else {
      JoinAppend(sx, sy);
      assert Cn([Str(jx), Str(jy)]) == Join([jx, jy]);
    }
  }

  /** The survivors of two string arguments: the non-empty ones, in order. */
  lemma SurvivorsOfPair(a: string, b: string)
    ensures Survivors([Str(a), Str(b)]) == (if a != "" then [a] else []) + (if b != "" then [b] else [])
  {
    assert [Str(a), Str(b)][1..] == [Str(b)];
    assert [Str(b)][1..] == [];
  }

  /** The total length of a list of words. */
  function SumLengths(ws: seq<string>): nat
  {
    if |ws| == 0 then 0 else |ws[0]| + SumLengths(ws[1..])
  }

  /** A join is as long as its words plus one separator between each consecutive pair. */
  lemma {:induction false} JoinLength(ws: seq<string>)
    ensures |ws| == 0 ==> Join(ws) == ""
    ensures |ws| > 0 ==> |Join(ws)| == SumLengths(ws) + |ws| - 1
    ensures (|ws| > 0 && forall w :: w in ws ==> w != "") ==> |Join(ws)| > 0
  {
    if |ws| == 1 {
      assert ws[0] in ws;
    } else if |ws| > 1 {
      JoinLength(ws[1..]);
    }
  }

  /**
   * The length of `cn`'s result: the lengths of the surviving texts plus one
   * space between each consecutive pair.
   */
  lemma CnLength(args: seq<ClassArg>)
    ensures var ws := Survivors(args);
            |ws| > 0 ==> |Cn(args)| == SumLengths(ws) + |ws| - 1
  {
    JoinLength(Survivors(args));
  }

  /** The position of the first space in `s`. */
  function FirstSpace(s: string): (i: nat)
    requires ' ' in s
    ensures i < |s| && s[i] == ' ' && ' ' !in s[..i]
  {
    if s[0] == ' ' then 0
    else
      assert ' ' in s[1..];
      var j := FirstSpace(s[1..]);
      assert s[..j + 1] == [s[0]] + s[1..][..j];
      j + 1
  }

  /** A space at `n` with none before it is the first space. */
  lemma FirstSpaceAt(s: string, n: nat)
    requires n < |s| && s[n] == ' ' && ' ' !in s[..n]
    ensures FirstSpace(s) == n
  {
    var i := FirstSpace(s);
    assert forall k :: 0 <= k < n ==> s[..n][k] == s[k];
    assert forall k :: 0 <= k < i ==> s[..i][k] == s[k];
  }

  /** `s` split at every single space. */
  function Words(s: string): (ws: seq<string>)
    decreases |s|
  {
    if ' ' !in s then [s]
    else
      var i := FirstSpace(s);
      [s[..i]] + Words(s[i + 1..])
  }

  /** Splitting a join of space-free words at its spaces gives the words back. */
  lemma {:induction false} WordsOfJoin(ws: seq<string>)
    requires |ws| > 0
    requires forall w :: w in ws ==> ' ' !in w
    ensures Words(Join(ws)) == ws
  {
    if |ws| == 1 {
      assert ' ' !in ws[0];
    } else {
      var s := Join(ws);
      var w := ws[0];
      assert s == w + " " + Join(ws[1..]);
      assert s[|w|] == ' ';
      assert s[..|w|] == w;
      assert ' ' !in w by { assert w in ws; }
      FirstSpaceAt(s, |w|);
      assert s[|w| + 1..] == Join(ws[1..]);
      WordsOfJoin(ws[1..]);
    }
  }

  /**
   * When no surviving argument contains a space, `cn`'s result splits back
   * into exactly the surviving texts, in order.
   */
  lemma CnWords(args: seq<ClassArg>)
    requires Survivors(args) != []
    requires forall w :: w in Survivors(args) ==> ' ' !in w
    ensures Words(Cn(args)) == Survivors(args)
  {
    WordsOfJoin(Survivors(args));
  }

  // ---------------------------------------------------------------------------
  // The exercise list of the "fitme" page
  // ---------------------------------------------------------------------------

  datatype Exercise = Exercise(title: string, description: string, image: string)

  const PhysicalExercises: seq<Exercise> := [
    Exercise(
      "Morning Stretch Routine",
      "5\U{2013}10 mins of full-body stretching improves blood flow, reduces stiffness, and boosts energy.",
      "https://images.unsplash.com/photo-1544367527-d0e513a968a3?auto=format&fit=crop&q=80&w=2670"),
    Exercise(
      "Brisk Walking",
      "A 20\U{2013}30 min walk outdoors helps improve cardiovascular health and reduces anxiety.",
      "https://images.unsplash.com/photo-1571019613-43454-1cb3f90b78ae?auto=format&fit=crop&q=80&w=2670"),
    Exercise(
      "Yoga (Sun Salutation)",
      "Combines stretching, controlled breathing, and mindfulness\U{2014}great for both body and mind.",
      "https://images.unsplash.com/photo-1558021212-bc0884242663?auto=format&fit=crop&q=80&w=2670"),
    Exercise(
      "Strength Training (Bodyweight)",
      "Simple push-ups, squats, and planks help build strength and release endorphins.",
      "https://images.unsplash.com/photo-1571019613-43454-1cb3f90b78ae?auto=format&fit=crop&q=80&w=2670")
  ]

  const MentalExercises: seq<Exercise> := [
    Exercise(
      "Deep Breathing (Box Breathing)",
      "Inhale for 4 sec \U{2192} Hold for 4 sec \U{2192} Exhale for 4 sec \U{2192} Hold for 4 sec. Reduces stress instantly.",
      "https://images.unsplash.com/photo-1594967399434-d02161f38e07?auto=format&fit=crop&q=80&w=2670"),
    Exercise(
      "Mindful Journaling",
      "Spend 10 mins writing down thoughts/feelings. Improves clarity and reduces overthinking.",
      "https://images.unsplash.com/photo-1549424888-00e704812328?auto=format&fit=crop&q=80&w=2670"),
    Exercise(
      "Guided Meditation",
      "Short 10\U{2013}15 min meditation sessions enhance focus and calm the nervous system.",
      "https://images.unsplash.com/photo-1538356230-043-41c3046f82c4?auto=format&fit=crop&q=80&w=2670"),
    Exercise(
      "Gratitude Practice",
      "Write down 3 things you\U{2019}re grateful for daily. Helps shift focus from stress to positivity.",
      "https://images.unsplash.com/photo-1541781774459-bb2af2f6e914?auto=format&fit=crop&q=80&w=2670")
  ]

  /**
   * The exercises shown for `healthType`: the physical list exactly when the
   * toggle reads "physical", the mental list for every other value.
   */
  function Exercises(healthType: string): (r: seq<Exercise>)
    ensures r == PhysicalExercises || r == MentalExercises
    ensures r == PhysicalExercises <==> healthType == "physical"
  {
    assert PhysicalExercises[0].title[0] != MentalExercises[0].title[0];
    if healthType == "physical" then PhysicalExercises else MentalExercises
  }
}
