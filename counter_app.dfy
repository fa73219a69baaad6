/**
  The `counter-app` element as an object: its reactive properties `counter`,
  `min` and `max`, updated in place by the two button handlers, and the
  post-update hook that starts the confetti. The confetti itself is abstracted
  to a count of `makeItRain` calls.
 */
module CounterElement {
  import opened CounterSpec

  class CounterApp {
    var counter: int
    var min: int
    var max: int
    /** How many times `makeItRain` has been called. */
    var celebrations: nat

    /** The constructor assigns 0, 1 and 9 and does not clamp: the counter
        starts below `min`. */
    constructor ()
      ensures counter == InitialCounter && min == InitialMin && max == InitialMax
      ensures celebrations == 0
      ensures !InRange(counter, min, max)
    {
      counter := InitialCounter;
      min := InitialMin;
      max := InitialMax;
      celebrations := 0;
    }

    /** The "ini+" handler: adds one only when the result stays at or below `max`. */
    method Increase()
      modifies this`counter
      ensures counter == Increased(old(counter), max)
      ensures old(counter) + 1 <= max ==> counter == old(counter) + 1
      ensures max < old(counter) + 1 ==> counter == old(counter)
      ensures min == old(min) && max == old(max)
      ensures old(InRange(counter, min, max)) ==> InRange(counter, min, max)
    {
      if counter + 1 <= max {
        counter := counter + 1;
      }
    }

    /** The "ini-" handler: subtracts one only when the result stays at or above `min`. */
    method Decrease()
      modifies this`counter
      ensures counter == Decreased(old(counter), min)
      ensures old(counter) - 1 >= min ==> counter == old(counter) - 1
      ensures old(counter) - 1 < min ==> counter == old(counter)
      ensures min == old(min) && max == old(max)
      ensures old(InRange(counter, min, max)) ==> InRange(counter, min, max)
    {
      if counter - 1 >= min {
        counter := counter - 1;
      }
    }

    /** The celebration effect, reduced to the fact that it was started. */
    method MakeItRain()
      modifies this`celebrations
      ensures celebrations == old(celebrations) + 1
    {
      celebrations := celebrations + 1;
    }

    /** The post-update hook; `counterChanged` says whether `counter` is among
        the properties that changed in this update. */
    method Updated(counterChanged: bool)
      modifies this`celebrations
      ensures celebrations == old(celebrations) + if Celebrates(counterChanged, counter) then 1 else 0
    {
      if counterChanged {
        if counter == CelebrationValue {
          MakeItRain();
        }
      }
    }

    /** A click on "ini+" followed by the update it causes; the counter counts as
        changed when it holds a value different from the one before the click. */
    method PressPlus()
      modifies this`counter, this`celebrations
      ensures counter == Run(old(counter), min, max, [Plus])
      ensures celebrations == old(celebrations) + CelebrationsIn(old(counter), min, max, [Plus])
    {
      var before := counter;
      Increase();
      Updated(counter != before);
      assert [Plus][1..] == [];
    }

    /** A click on "ini-" followed by the update it causes. */
    method PressMinus()
      modifies this`counter, this`celebrations
      ensures counter == Run(old(counter), min, max, [Minus])
      ensures celebrations == old(celebrations) + CelebrationsIn(old(counter), min, max, [Minus])
    {
      var before := counter;
      Decrease();
      Updated(counter != before);
      assert [Minus][1..] == [];
    }

    /** An outside write of the reflected `counter` property: stored as given. */
    method SetCounter(value: int)
      modifies this`counter
      ensures counter == value
    {
      counter := value;
    }

    /** An outside write of `min`: stored as given, the counter is not re-clamped. */
    method SetMin(value: int)
      modifies this`min
      ensures min == value && counter == old(counter)
    {
      min := value;
    }

    /** An outside write of `max`: stored as given, the counter is not re-clamped. */
    method SetMax(value: int)
      modifies this`max
      ensures max == value && counter == old(counter)
    {
      max := value;
    }
  }

  /** A fresh element, its first update (in which `counter` is reported as
      changed, holding 0), then seven clicks on "ini+": the counter reads 7 and
      the confetti has been started once. */
  method SevenPlusClicks() returns (counter: int, celebrations: nat)
    ensures counter == 7 && celebrations == 1
  {
    var app := new CounterApp();
    app.Updated(true);
    app.PressPlus();
    app.PressPlus();
    app.PressPlus();
    app.PressPlus();
    app.PressPlus();
    app.PressPlus();
    app.PressPlus();
    counter, celebrations := app.counter, app.celebrations;
  }

  /** Clicking "ini+" at the upper bound changes nothing, and does not restart the
      confetti: after the first update, nine clicks reach 9 with one celebration,
      and a tenth leaves both as they are. */
  method PlusAtMaxIsNoOp() returns (atNine: int, celebrationsAtNine: nat, counter: int, celebrations: nat)
    ensures atNine == InitialMax && celebrationsAtNine == 1
    ensures counter == atNine && celebrations == celebrationsAtNine
  {
    var app := new CounterApp();
    app.Updated(true);
    app.PressPlus(); app.PressPlus(); app.PressPlus();
    app.PressPlus(); app.PressPlus(); app.PressPlus();
    app.PressPlus(); app.PressPlus(); app.PressPlus();
    atNine, celebrationsAtNine := app.counter, app.celebrations;
    app.PressPlus();
    counter, celebrations := app.counter, app.celebrations;
  }

  /** After the first update, a first click on "ini-" is a no-op: 0 - 1 is below `min`. */
  method FirstMinusClickIsNoOp() returns (counter: int, celebrations: nat)
    ensures counter == InitialCounter && celebrations == 0
  {
    var app := new CounterApp();
    app.Updated(true);
    app.PressMinus();
    counter, celebrations := app.counter, app.celebrations;
  }

  /** Lowering `max` below the counter leaves the counter outside the range; "ini+"
      then does nothing and "ini-" still steps down. */
  method LoweredMaxIsNotReclamped() returns (afterLowering: int, afterPlus: int, afterMinus: int)
    ensures afterLowering == 5 && afterPlus == 5 && afterMinus == 4
  {
    var app := new CounterApp();
    app.Updated(true);
    app.PressPlus();
    app.PressPlus();
    app.PressPlus();
    app.PressPlus();
    app.PressPlus();
    app.SetMax(3);
    afterLowering := app.counter;
    app.PressPlus();
    afterPlus := app.counter;
    app.PressMinus();
    afterMinus := app.counter;
  }

  /** Writing 7 into `counter` from outside, after the first update, also starts
      the confetti in the update that follows. */
  method OutsideWriteOfSevenCelebrates() returns (celebrations: nat)
    ensures celebrations == 1
  {
    var app := new CounterApp();
    app.Updated(true);
    app.SetCounter(CelebrationValue);
    app.Updated(true);
    celebrations := app.celebrations;
  }
}
