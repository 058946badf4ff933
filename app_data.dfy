/** The values held by the FitTrack session: workouts, friends, the goal
    selector, the two fixed diet plans, and the pure list transformations the
    event handlers apply to the workout and friend lists. */
module AppData {

  /** Identifiers are the strings the app stores in `id` ('1' .. '5' for the
      seed list, the millisecond clock rendered as text for added entries). */
  type Id = string

  datatype Workout = Workout(id: Id, name: string, calories: int, completed: bool, date: string)

  datatype Friend = Friend(id: Id, name: string, workouts: int, progress: int)

  /** The goal selector: weight loss or weight gain. */
  datatype Goal = Loss | Gain

  datatype DietPlan = DietPlan(breakfast: string, lunch: string, dinner: string, snacks: string, total: int)

  /** Pending values of the add-workout form; both are raw input text. */
  datatype WorkoutForm = WorkoutForm(name: string, calories: string)

  /** Pending value of the add-friend form. */
  datatype FriendForm = FriendForm(name: string)

  const EMPTY_WORKOUT_FORM := WorkoutForm("", "")
  const EMPTY_FRIEND_FORM := FriendForm("")

  function WorkoutId(w: Workout): Id { w.id }

  function FriendId(f: Friend): Id { f.id }

  /** The five workouts the session starts with, all dated `today`. */
  function SeedWorkouts(today: string): (r: seq<Workout>)
    ensures |r| == 5
    ensures forall i :: 0 <= i < |r| ==> r[i].date == today
    ensures forall i, j :: 0 <= i < j < |r| ==> r[i].id != r[j].id
    ensures forall i :: 0 <= i < |r| ==> r[i].calories > 0
  {
    [ Workout("1", "Push-ups", 100, false, today),
      Workout("2", "Running", 300, true, today),
      Workout("3", "Squats", 150, false, today),
      Workout("4", "Cycling", 400, false, today),
      Workout("5", "Plank", 80, true, today) ]
  }

  const WEIGHT_LOSS_DIET := DietPlan(
    "Oatmeal with fruits (300 cal)",
    "Grilled chicken salad (400 cal)",
    "Salmon with vegetables (500 cal)",
    "Nuts and yogurt (200 cal)",
    1400)

  const WEIGHT_GAIN_DIET := DietPlan(
    "Protein smoothie with oats (500 cal)",
    "Rice with chicken breast and avocado (700 cal)",
    "Steak with sweet potato (800 cal)",
    "Protein bar and banana (400 cal)",
    2400)

  /** The diet plan shown for a goal: every field of the plan is picked by the
      same test on the goal, so the whole record is the loss plan or the gain plan. */
  function DietFor(g: Goal): (p: DietPlan)
    ensures p.total == (if g.Loss? then 1400 else 2400)
    ensures g.Loss? <==> p == WEIGHT_LOSS_DIET
    ensures g.Gain? <==> p == WEIGHT_GAIN_DIET
  {
    assert WEIGHT_LOSS_DIET.total != WEIGHT_GAIN_DIET.total;
    match g
    case Loss => WEIGHT_LOSS_DIET
    case Gain => WEIGHT_GAIN_DIET
  }

  /** The goal selector and the plan it shows determine each other. */
  lemma DietForInjective(g1: Goal, g2: Goal)
    ensures DietFor(g1) == DietFor(g2) <==> g1 == g2
  {
  }

  /** Flips `completed` on every entry whose id is `id` and leaves every other
      entry as it is. */
  function ToggleById(ws: seq<Workout>, id: Id): (r: seq<Workout>)
    ensures |r| == |ws|
    ensures forall i :: 0 <= i < |ws| && ws[i].id == id ==>
      r[i] == ws[i].(completed := !ws[i].completed)
    ensures forall i :: 0 <= i < |ws| && ws[i].id != id ==> r[i] == ws[i]
  {
    if ws == [] then []
    else
      var head := if ws[0].id == id then ws[0].(completed := !ws[0].completed) else ws[0];
      [head] + ToggleById(ws[1..], id)
  }

  /** Toggling the same id twice gives back the original list. */
  lemma ToggleInvolution(ws: seq<Workout>, id: Id)
    ensures ToggleById(ToggleById(ws, id), id) == ws
  {
  }

  /** Toggling an id no entry carries leaves the list as it was. */
  lemma ToggleMissing(ws: seq<Workout>, id: Id)
    requires forall i :: 0 <= i < |ws| ==> ws[i].id != id
    ensures ToggleById(ws, id) == ws
  {
  }

  /** Toggling neither adds nor loses an id: the set of ids present in the
      workout list is the same before and after. */
  lemma ToggleKeepsIds(ws: seq<Workout>, id: Id)
    ensures (set w | w in ToggleById(ws, id) :: w.id) == (set w | w in ws :: w.id)
  {
    var r := ToggleById(ws, id);
    var after, before := set w | w in r :: w.id, set w | w in ws :: w.id;
    forall x | x in after ensures x in before {
      var i :| 0 <= i < |r| && r[i].id == x;
      assert ws[i] in ws;
    }
    forall x | x in before ensures x in after {
      var i :| 0 <= i < |ws| && ws[i].id == x;
      assert r[i] in r;
    }
  }

  /** The entries whose key differs from `id`, in their original order. */
  function Without<T>(s: seq<T>, key: T -> Id, id: Id): (r: seq<T>)
    ensures |r| <= |s|
    ensures forall x :: x in r ==> x in s && key(x) != id
    ensures (forall i :: 0 <= i < |s| ==> key(s[i]) != id) ==> r == s
  {
    if s == [] then []
    else (if key(s[0]) == id then [] else [s[0]]) + Without(s[1..], key, id)
  }

  /** `a` is `b` with some entries dropped and the rest in the same order. */
  ghost predicate IsSubsequence<T>(a: seq<T>, b: seq<T>)
    decreases |b|
  {
    a == [] ||
    (b != [] && ((a[0] == b[0] && IsSubsequence(a[1..], b[1..])) || IsSubsequence(a, b[1..])))
  }

  /** Removing by id keeps the order of the remaining entries. */
  lemma {:induction false} WithoutIsSubsequence<T>(s: seq<T>, key: T -> Id, id: Id)
    ensures IsSubsequence(Without(s, key, id), s)
  {
    if s != [] {
      WithoutIsSubsequence(s[1..], key, id);
      var rest := Without(s[1..], key, id);
      if key(s[0]) == id {
        assert Without(s, key, id) == rest;
      } else {
        assert Without(s, key, id) == [s[0]] + rest;
        assert Without(s, key, id)[1..] == rest;
      }
    }
  }

  /** Removing by id drops every occurrence of every entry with that id and
      keeps every occurrence of every other entry. */
  lemma {:induction false} WithoutMultiplicity<T>(s: seq<T>, key: T -> Id, id: Id, x: T)
    ensures multiset(Without(s, key, id))[x] == if key(x) == id then 0 else multiset(s)[x]
  {
    if s == [] {
    } else {
      WithoutMultiplicity(s[1..], key, id, x);
      assert s == [s[0]] + s[1..];
      assert multiset(s) == multiset{s[0]} + multiset(s[1..]);
    }
  }

  /** What is left after removing by id is one entry shorter for each entry
      that carried the id. */
  lemma {:induction false} WithoutLength<T>(s: seq<T>, key: T -> Id, id: Id)
    ensures |Without(s, key, id)| == |s| - |Matching(s, key, id)|
  {
    if s != [] {
      WithoutLength(s[1..], key, id);
    }
  }

  /** The entries of `s` whose key is `id`, in order. */
  function Matching<T>(s: seq<T>, key: T -> Id, id: Id): (r: seq<T>)
    ensures forall x :: x in r ==> x in s && key(x) == id
  {
    if s == [] then []
    else (if key(s[0]) == id then [s[0]] else []) + Matching(s[1..], key, id)
  }

  /** Removing the same id a second time changes nothing. */
  lemma WithoutIdempotent<T>(s: seq<T>, key: T -> Id, id: Id)
    ensures Without(Without(s, key, id), key, id) == Without(s, key, id)
  {
  }

  /** Deleting an id after toggling it is the same as deleting it straight
      away: the toggle touches only the entries the delete removes. */
  lemma {:induction false} ToggleThenDelete(ws: seq<Workout>, id: Id)
    ensures Without(ToggleById(ws, id), WorkoutId, id) == Without(ws, WorkoutId, id)
  {
    if ws != [] {
      ToggleThenDelete(ws[1..], id);
      assert ToggleById(ws, id)[1..] == ToggleById(ws[1..], id);
    }
  }
}
