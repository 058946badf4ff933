/** The FitTrack session store: one field per piece of state the app component
    keeps, and one method per handler that replaces those fields. */
module AppStore {
  import opened AppData

  /** A snapshot of every store field, used to say what a handler changes and
      that it changes nothing else. */
  datatype Session = Session(
    workouts: seq<Workout>,
    friends: seq<Friend>,
    showAddWorkout: bool,
    showAddFriend: bool,
    newWorkout: WorkoutForm,
    newFriend: FriendForm,
    goalType: Goal)

  class Store {
    var workouts: seq<Workout>
    var friends: seq<Friend>
    var showAddWorkout: bool
    var showAddFriend: bool
    var newWorkout: WorkoutForm
    var newFriend: FriendForm
    var goalType: Goal

    /** Friends are only ever created with no workouts and no progress, and no
        handler updates those two numbers afterwards. */
    ghost predicate Valid()
      reads this
    {
      forall f :: f in friends ==> f.workouts == 0 && f.progress == 0
    }

    ghost function State(): Session
      reads this
    {
      Session(workouts, friends, showAddWorkout, showAddFriend, newWorkout, newFriend, goalType)
    }

    /** The initial state; `today` is the date part of the clock at start-up. */
    constructor (today: string)
      ensures Valid()
      ensures State() == Session(SeedWorkouts(today), [], false, false,
                                 EMPTY_WORKOUT_FORM, EMPTY_FRIEND_FORM, Loss)
    {
      workouts := SeedWorkouts(today);
      friends := [];
      showAddWorkout := false;
      showAddFriend := false;
      newWorkout := EMPTY_WORKOUT_FORM;
      newFriend := EMPTY_FRIEND_FORM;
      goalType := Loss;
    }

    /** The diet plan the goals tab shows for the current selector. */
    function Diet(): (p: DietPlan)
      reads this
      ensures p.total == (if goalType == Loss then 1400 else 2400)
    {
      DietFor(goalType)
    }

    method ToggleWorkout(id: Id)
      requires Valid()
      modifies this
      ensures Valid()
      ensures State() == old(State()).(workouts := ToggleById(old(workouts), id))
    {
      workouts := ToggleById(workouts, id);
    }

    /** Submitting the add-workout form. `now` is the clock reading used as
        the new id, `today` the date part of the clock, and `parseInt` the
        conversion of the calorie text, none of which the guard inspects. */
    method AddWorkout(now: Id, today: string, parseInt: string -> int)
      requires Valid()
      modifies this
      ensures Valid()
      ensures old(newWorkout.name != "" && newWorkout.calories != "") ==>
        State() == old(State()).(
          workouts := old(workouts) + [Workout(now, old(newWorkout.name), parseInt(old(newWorkout.calories)), false, today)],
          newWorkout := EMPTY_WORKOUT_FORM,
          showAddWorkout := false)
      ensures old(newWorkout.name == "" || newWorkout.calories == "") ==> State() == old(State())
    {
      if newWorkout.name != "" && newWorkout.calories != "" {
        var workout := Workout(now, newWorkout.name, parseInt(newWorkout.calories), false, today);
        workouts := workouts + [workout];
        newWorkout := EMPTY_WORKOUT_FORM;
        showAddWorkout := false;
      }
    }

    /** Submitting the add-friend form; `now` is the clock reading used as the id. */
    method AddFriend(now: Id)
      requires Valid()
      modifies this
      ensures Valid()
      ensures old(newFriend.name) != "" ==>
        State() == old(State()).(
          friends := old(friends) + [Friend(now, old(newFriend.name), 0, 0)],
          newFriend := EMPTY_FRIEND_FORM,
          showAddFriend := false)
      ensures old(newFriend.name) == "" ==> State() == old(State())
    {
      if newFriend.name != "" {
        var friend := Friend(now, newFriend.name, 0, 0);
        friends := friends + [friend];
        newFriend := EMPTY_FRIEND_FORM;
        showAddFriend := false;
      }
    }

    method DeleteWorkout(id: Id)
      requires Valid()
      modifies this
      ensures Valid()
      ensures State() == old(State()).(workouts := Without(old(workouts), WorkoutId, id))
    {
      workouts := Without(workouts, WorkoutId, id);
    }

    method DeleteFriend(id: Id)
      requires Valid()
      modifies this
      ensures Valid()
      ensures State() == old(State()).(friends := Without(old(friends), FriendId, id))
    {
      friends := Without(friends, FriendId, id);
    }

    /** The 'Weight Loss' and 'Weight Gain' buttons. */
    method SetGoal(g: Goal)
      requires Valid()
      modifies this
      ensures Valid()
      ensures State() == old(State()).(goalType := g)
    {
      goalType := g;
    }

    /** Typing into the workout-name field. */
    method SetWorkoutName(text: string)
      requires Valid()
      modifies this
      ensures Valid()
      ensures State() == old(State()).(newWorkout := old(newWorkout).(name := text))
    {
      newWorkout := newWorkout.(name := text);
    }

    /** Typing into the calories field. */
    method SetWorkoutCalories(text: string)
      requires Valid()
      modifies this
      ensures Valid()
      ensures State() == old(State()).(newWorkout := old(newWorkout).(calories := text))
    {
      newWorkout := newWorkout.(calories := text);
    }

    /** Typing into the friend-name field. */
    method SetFriendName(text: string)
      requires Valid()
      modifies this
      ensures Valid()
      ensures State() == old(State()).(newFriend := FriendForm(text))
    {
      newFriend := newFriend.(name := text);
    }

    /** The 'Add Workout' button (`open == true`) and the modal's close button. */
    method ShowAddWorkout(open: bool)
      requires Valid()
      modifies this
      ensures Valid()
      ensures State() == old(State()).(showAddWorkout := open)
    {
      showAddWorkout := open;
    }

    /** The 'Add Friend' button (`open == true`) and the modal's close button. */
    method ShowAddFriend(open: bool)
      requires Valid()
      modifies this
      ensures Valid()
      ensures State() == old(State()).(showAddFriend := open)
    {
      showAddFriend := open;
    }
  }

  /** A client run: two friends are added under distinct clock readings and
      the first is deleted again; one friend, the second, remains. Only the
      handlers' contracts are used. */
  method AddTwoDeleteFirst(today: string, first: Id, second: Id)
    returns (count: nat, remaining: string)
    requires first != second
    ensures count == 1 && remaining == "Bob"
  {
    var store := new Store(today);
    store.SetFriendName("Alice");
    store.AddFriend(first);
    store.SetFriendName("Bob");
    store.AddFriend(second);
    store.DeleteFriend(first);
    assert store.friends == [Friend(second, "Bob", 0, 0)];
    count := |store.friends|;
    remaining := store.friends[0].name;
  }

  /** Choosing the same goal twice leaves the selector, and so the diet plan
      shown, where the first choice put it. */
  method SetGoalTwice(today: string, g: Goal) returns (first: DietPlan, second: DietPlan)
    ensures first == second
    ensures second.total == (if g == Loss then 1400 else 2400)
  {
    var store := new Store(today);
    store.SetGoal(g);
    first := store.Diet();
    store.SetGoal(g);
    second := store.Diet();
  }
}
