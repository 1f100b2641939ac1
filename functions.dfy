/** `calculate_mutiple_numbers` of `functions.py`: an accumulator loop over its
    variadic arguments. Its docstring speaks of a product, but the loop adds,
    and the model follows the loop. */
module Functions {

  /** Reference definition: the sum of `xs`, element by element from the left. */
  function Sum(xs: seq<int>): int
  {
    if xs == [] then 0 else Sum(xs[..|xs| - 1]) + xs[|xs| - 1]
  }

  /** What each pass of the loop relies on: adding one more number to the end
      adds it to the sum. */
  lemma SumSnoc(xs: seq<int>, x: int)
    ensures Sum(xs + [x]) == Sum(xs) + x
  {
    assert (xs + [x])[..|xs|] == xs;
  }

  /** The sum of two runs of numbers is the sum of their sums. */
  lemma {:induction false} SumAppend(xs: seq<int>, ys: seq<int>)
    ensures Sum(xs + ys) == Sum(xs) + Sum(ys)
    decreases |ys|
  {
    if ys == [] {
      assert xs + ys == xs;
    } else {
      var init := ys[..|ys| - 1];
      var last := ys[|ys| - 1];
      assert ys == init + [last];
      assert xs + ys == (xs + init) + [last];
      SumSnoc(xs + init, last);
      SumAppend(xs, init);
      SumSnoc(init, last);
    }
  }

  /** `calculate_mutiple_numbers(*args)`: `count` starts at 0 and each argument
      is added to it in turn, so the result is the sum of the arguments, and 0
      when there are none. */
  method CalculateMultipleNumbers(args: seq<int>) returns (count: int)
    ensures count == Sum(args)
    ensures args == [] ==> count == 0
  {
    count := 0;
    for i := 0 to |args|
      invariant count == Sum(args[..i])
    {
      SumSnoc(args[..i], args[i]);
      assert args[..i + 1] == args[..i] + [args[i]];
      count := count + args[i];
    }
    assert args[..|args|] == args;
  }

  /** The script's own call: `calculate_mutiple_numbers(2, 3, 4, 5)` is 14. */
  method Example() returns (result: int)
    ensures result == 14
  {
    result := CalculateMultipleNumbers([2, 3, 4, 5]);
    SumSnoc([], 2);
    assert [] + [2] == [2];
    SumSnoc([2], 3);
    assert [2] + [3] == [2, 3];
    SumSnoc([2, 3], 4);
    assert [2, 3] + [4] == [2, 3, 4];
    SumSnoc([2, 3, 4], 5);
    assert [2, 3, 4] + [5] == [2, 3, 4, 5];
  }
}
