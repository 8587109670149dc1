/** The repository's own test equations: for each, the expression tree it
    writes out, the infix tokens, the postfix tokens they convert to, and
    the value they evaluate to; then the error paths on small inputs. The
    power function is a parameter, so an example that uses `^` states the
    one power it relies on. */
module Examples {
  import opened Results
  import opened Operators
  import opened Tokens
  import opened Converter
  import opened Evaluator
  import opened Expressions

  /** `1 + 2` */
  const OnePlusTwoTree := Bin(Plus, Lit(1.0), Lit(2.0))

  lemma OnePlusTwoInfix()
    ensures Infix(OnePlusTwoTree) == [Num(1.0), Op(Plus), Num(2.0)]
  {
  }

  lemma OnePlusTwoPostfix()
    ensures Postfix(OnePlusTwoTree) == [Num(1.0), Num(2.0), Op(Plus)]
  {
  }

  lemma OnePlusTwo(pow: PowFn)
    ensures Convert([Num(1.0), Op(Plus), Num(2.0)])
         == Ok([Num(1.0), Num(2.0), Op(Plus)])
    ensures Evaluate([Num(1.0), Num(2.0), Op(Plus)], pow) == Ok(3.0)
  {
    assert WellGrouped(OnePlusTwoTree);
    OnePlusTwoInfix();
    OnePlusTwoPostfix();
    ConvertInfix(OnePlusTwoTree);
    assert Eval(OnePlusTwoTree, pow) == Ok(3.0);
    EvaluatePostfix(OnePlusTwoTree, pow);
  }

  /** `1 - 2` */
  const OneMinusTwoTree := Bin(Minus, Lit(1.0), Lit(2.0))

  lemma OneMinusTwoInfix()
    ensures Infix(OneMinusTwoTree) == [Num(1.0), Op(Minus), Num(2.0)]
  {
  }

  lemma OneMinusTwoPostfix()
    ensures Postfix(OneMinusTwoTree) == [Num(1.0), Num(2.0), Op(Minus)]
  {
  }

  lemma OneMinusTwo(pow: PowFn)
    ensures Convert([Num(1.0), Op(Minus), Num(2.0)])
         == Ok([Num(1.0), Num(2.0), Op(Minus)])
    ensures Evaluate([Num(1.0), Num(2.0), Op(Minus)], pow) == Ok(-1.0)
  {
    assert WellGrouped(OneMinusTwoTree);
    OneMinusTwoInfix();
    OneMinusTwoPostfix();
    ConvertInfix(OneMinusTwoTree);
    assert Eval(OneMinusTwoTree, pow) == Ok(-1.0);
    EvaluatePostfix(OneMinusTwoTree, pow);
  }

  /** `2 - 1` */
  const TwoMinusOneTree := Bin(Minus, Lit(2.0), Lit(1.0))

  lemma TwoMinusOneInfix()
    ensures Infix(TwoMinusOneTree) == [Num(2.0), Op(Minus), Num(1.0)]
  {
  }

  lemma TwoMinusOnePostfix()
    ensures Postfix(TwoMinusOneTree) == [Num(2.0), Num(1.0), Op(Minus)]
  {
  }

  lemma TwoMinusOne(pow: PowFn)
    ensures Convert([Num(2.0), Op(Minus), Num(1.0)])
         == Ok([Num(2.0), Num(1.0), Op(Minus)])
    ensures Evaluate([Num(2.0), Num(1.0), Op(Minus)], pow) == Ok(1.0)
  {
    assert WellGrouped(TwoMinusOneTree);
    TwoMinusOneInfix();
    TwoMinusOnePostfix();
    ConvertInfix(TwoMinusOneTree);
    assert Eval(TwoMinusOneTree, pow) == Ok(1.0);
    EvaluatePostfix(TwoMinusOneTree, pow);
  }

  /** `4 * 3` */
  const FourTimesThreeTree := Bin(Times, Lit(4.0), Lit(3.0))

  lemma FourTimesThreeInfix()
    ensures Infix(FourTimesThreeTree) == [Num(4.0), Op(Times), Num(3.0)]
  {
  }

  lemma FourTimesThreePostfix()
    ensures Postfix(FourTimesThreeTree) == [Num(4.0), Num(3.0), Op(Times)]
  {
  }

  lemma FourTimesThree(pow: PowFn)
    ensures Convert([Num(4.0), Op(Times), Num(3.0)])
         == Ok([Num(4.0), Num(3.0), Op(Times)])
    ensures Evaluate([Num(4.0), Num(3.0), Op(Times)], pow) == Ok(12.0)
  {
    assert WellGrouped(FourTimesThreeTree);
    FourTimesThreeInfix();
    FourTimesThreePostfix();
    ConvertInfix(FourTimesThreeTree);
    assert Eval(FourTimesThreeTree, pow) == Ok(12.0);
    EvaluatePostfix(FourTimesThreeTree, pow);
  }

  /** `3 * 4` */
  const ThreeTimesFourTree := Bin(Times, Lit(3.0), Lit(4.0))

  lemma ThreeTimesFourInfix()
    ensures Infix(ThreeTimesFourTree) == [Num(3.0), Op(Times), Num(4.0)]
  {
  }

  lemma ThreeTimesFourPostfix()
    ensures Postfix(ThreeTimesFourTree) == [Num(3.0), Num(4.0), Op(Times)]
  {
  }

  lemma ThreeTimesFour(pow: PowFn)
    ensures Convert([Num(3.0), Op(Times), Num(4.0)])
         == Ok([Num(3.0), Num(4.0), Op(Times)])
    ensures Evaluate([Num(3.0), Num(4.0), Op(Times)], pow) == Ok(12.0)
  {
    assert WellGrouped(ThreeTimesFourTree);
    ThreeTimesFourInfix();
    ThreeTimesFourPostfix();
    ConvertInfix(ThreeTimesFourTree);
    assert Eval(ThreeTimesFourTree, pow) == Ok(12.0);
    EvaluatePostfix(ThreeTimesFourTree, pow);
  }

  /** `10 / 5` */
  const TenOverFiveTree := Bin(Divide, Lit(10.0), Lit(5.0))

  lemma TenOverFiveInfix()
    ensures Infix(TenOverFiveTree) == [Num(10.0), Op(Divide), Num(5.0)]
  {
  }

  lemma TenOverFivePostfix()
    ensures Postfix(TenOverFiveTree) == [Num(10.0), Num(5.0), Op(Divide)]
  {
  }

  lemma TenOverFive(pow: PowFn)
    ensures Convert([Num(10.0), Op(Divide), Num(5.0)])
         == Ok([Num(10.0), Num(5.0), Op(Divide)])
    ensures Evaluate([Num(10.0), Num(5.0), Op(Divide)], pow) == Ok(2.0)
  {
    assert WellGrouped(TenOverFiveTree);
    TenOverFiveInfix();
    TenOverFivePostfix();
    ConvertInfix(TenOverFiveTree);
    assert Eval(TenOverFiveTree, pow) == Ok(2.0);
    EvaluatePostfix(TenOverFiveTree, pow);
  }

  /** `5 / 10` */
  const FiveOverTenTree := Bin(Divide, Lit(5.0), Lit(10.0))

  lemma FiveOverTenInfix()
    ensures Infix(FiveOverTenTree) == [Num(5.0), Op(Divide), Num(10.0)]
  {
  }

  lemma FiveOverTenPostfix()
    ensures Postfix(FiveOverTenTree) == [Num(5.0), Num(10.0), Op(Divide)]
  {
  }

  lemma FiveOverTen(pow: PowFn)
    ensures Convert([Num(5.0), Op(Divide), Num(10.0)])
         == Ok([Num(5.0), Num(10.0), Op(Divide)])
    ensures Evaluate([Num(5.0), Num(10.0), Op(Divide)], pow) == Ok(0.5)
  {
    assert WellGrouped(FiveOverTenTree);
    FiveOverTenInfix();
    FiveOverTenPostfix();
    ConvertInfix(FiveOverTenTree);
    assert Eval(FiveOverTenTree, pow) == Ok(0.5);
    EvaluatePostfix(FiveOverTenTree, pow);
  }

  /** `2 ^ 5` */
  const TwoToTheFifthTree := Bin(Power, Lit(2.0), Lit(5.0))

  lemma TwoToTheFifthInfix()
    ensures Infix(TwoToTheFifthTree) == [Num(2.0), Op(Power), Num(5.0)]
  {
  }

  lemma TwoToTheFifthPostfix()
    ensures Postfix(TwoToTheFifthTree) == [Num(2.0), Num(5.0), Op(Power)]
  {
  }

  lemma TwoToTheFifth(pow: PowFn)
    requires pow(2.0, 5.0) == 32.0
    ensures Convert([Num(2.0), Op(Power), Num(5.0)])
         == Ok([Num(2.0), Num(5.0), Op(Power)])
    ensures Evaluate([Num(2.0), Num(5.0), Op(Power)], pow) == Ok(32.0)
  {
    assert WellGrouped(TwoToTheFifthTree);
    TwoToTheFifthInfix();
    TwoToTheFifthPostfix();
    ConvertInfix(TwoToTheFifthTree);
    assert Eval(TwoToTheFifthTree, pow) == Ok(32.0);
    EvaluatePostfix(TwoToTheFifthTree, pow);
  }

  /** `2 ^ ( 5 - 3 )` */
  const TwoToGroupedDifferenceTree := Bin(Power, Lit(2.0), Group(Bin(Minus, Lit(5.0), Lit(3.0))))

  lemma TwoToGroupedDifferenceInfix()
    ensures Infix(TwoToGroupedDifferenceTree) == [Num(2.0), Op(Power), LParen, Num(5.0), Op(Minus), Num(3.0), RParen]
  {
  }

  lemma TwoToGroupedDifferencePostfix()
    ensures Postfix(TwoToGroupedDifferenceTree) == [Num(2.0), Num(5.0), Num(3.0), Op(Minus), Op(Power)]
  {
  }

  lemma TwoToGroupedDifference(pow: PowFn)
    requires pow(2.0, 2.0) == 4.0
    ensures Convert([Num(2.0), Op(Power), LParen, Num(5.0), Op(Minus), Num(3.0), RParen])
         == Ok([Num(2.0), Num(5.0), Num(3.0), Op(Minus), Op(Power)])
    ensures Evaluate([Num(2.0), Num(5.0), Num(3.0), Op(Minus), Op(Power)], pow) == Ok(4.0)
  {
    assert WellGrouped(TwoToGroupedDifferenceTree);
    TwoToGroupedDifferenceInfix();
    TwoToGroupedDifferencePostfix();
    ConvertInfix(TwoToGroupedDifferenceTree);
    assert Eval(TwoToGroupedDifferenceTree, pow) == Ok(4.0);
    EvaluatePostfix(TwoToGroupedDifferenceTree, pow);
  }

  /** `2 ^ 5 - 3` */
  const PowerBeforeMinusTree := Bin(Minus, Bin(Power, Lit(2.0), Lit(5.0)), Lit(3.0))

  lemma PowerBeforeMinusInfix()
    ensures Infix(PowerBeforeMinusTree) == [Num(2.0), Op(Power), Num(5.0), Op(Minus), Num(3.0)]
  {
  }

  lemma PowerBeforeMinusPostfix()
    ensures Postfix(PowerBeforeMinusTree) == [Num(2.0), Num(5.0), Op(Power), Num(3.0), Op(Minus)]
  {
  }

  lemma PowerBeforeMinus(pow: PowFn)
    requires pow(2.0, 5.0) == 32.0
    ensures Convert([Num(2.0), Op(Power), Num(5.0), Op(Minus), Num(3.0)])
         == Ok([Num(2.0), Num(5.0), Op(Power), Num(3.0), Op(Minus)])
    ensures Evaluate([Num(2.0), Num(5.0), Op(Power), Num(3.0), Op(Minus)], pow) == Ok(29.0)
  {
    assert WellGrouped(PowerBeforeMinusTree);
    PowerBeforeMinusInfix();
    PowerBeforeMinusPostfix();
    ConvertInfix(PowerBeforeMinusTree);
    assert Eval(PowerBeforeMinusTree, pow) == Ok(29.0);
    EvaluatePostfix(PowerBeforeMinusTree, pow);
  }

  /** `4 - 2 ^ 3` */
  const MinusAfterPowerTree := Bin(Minus, Lit(4.0), Bin(Power, Lit(2.0), Lit(3.0)))

  lemma MinusAfterPowerInfix()
    ensures Infix(MinusAfterPowerTree) == [Num(4.0), Op(Minus), Num(2.0), Op(Power), Num(3.0)]
  {
  }

  lemma MinusAfterPowerPostfix()
    ensures Postfix(MinusAfterPowerTree) == [Num(4.0), Num(2.0), Num(3.0), Op(Power), Op(Minus)]
  {
  }

  lemma MinusAfterPower(pow: PowFn)
    requires pow(2.0, 3.0) == 8.0
    ensures Convert([Num(4.0), Op(Minus), Num(2.0), Op(Power), Num(3.0)])
         == Ok([Num(4.0), Num(2.0), Num(3.0), Op(Power), Op(Minus)])
    ensures Evaluate([Num(4.0), Num(2.0), Num(3.0), Op(Power), Op(Minus)], pow) == Ok(-4.0)
  {
    assert WellGrouped(MinusAfterPowerTree);
    MinusAfterPowerInfix();
    MinusAfterPowerPostfix();
    ConvertInfix(MinusAfterPowerTree);
    assert Eval(MinusAfterPowerTree, pow) == Ok(-4.0);
    EvaluatePostfix(MinusAfterPowerTree, pow);
  }

  /** `( 4 - 2 ) ^ 3` */
  const GroupedDifferenceCubedTree := Bin(Power, Group(Bin(Minus, Lit(4.0), Lit(2.0))), Lit(3.0))

  lemma GroupedDifferenceCubedInfix()
    ensures Infix(GroupedDifferenceCubedTree) == [LParen, Num(4.0), Op(Minus), Num(2.0), RParen, Op(Power), Num(3.0)]
  {
  }

  lemma GroupedDifferenceCubedPostfix()
    ensures Postfix(GroupedDifferenceCubedTree) == [Num(4.0), Num(2.0), Op(Minus), Num(3.0), Op(Power)]
  {
  }

  lemma GroupedDifferenceCubed(pow: PowFn)
    requires pow(2.0, 3.0) == 8.0
    ensures Convert([LParen, Num(4.0), Op(Minus), Num(2.0), RParen, Op(Power), Num(3.0)])
         == Ok([Num(4.0), Num(2.0), Op(Minus), Num(3.0), Op(Power)])
    ensures Evaluate([Num(4.0), Num(2.0), Op(Minus), Num(3.0), Op(Power)], pow) == Ok(8.0)
  {
    assert WellGrouped(GroupedDifferenceCubedTree);
    GroupedDifferenceCubedInfix();
    GroupedDifferenceCubedPostfix();
    ConvertInfix(GroupedDifferenceCubedTree);
    assert Eval(GroupedDifferenceCubedTree, pow) == Ok(8.0);
    EvaluatePostfix(GroupedDifferenceCubedTree, pow);
  }

  /** `( 6 + 2 ) ^ ( 2 - 3 )` */
  const GroupedNegativeExponentTree := Bin(Power, Group(Bin(Plus, Lit(6.0), Lit(2.0))), Group(Bin(Minus, Lit(2.0), Lit(3.0))))

  lemma GroupedNegativeExponentInfix()
    ensures Infix(GroupedNegativeExponentTree) == [LParen, Num(6.0), Op(Plus), Num(2.0), RParen, Op(Power), LParen, Num(2.0), Op(Minus), Num(3.0), RParen]
  {
  }

  lemma GroupedNegativeExponentPostfix()
    ensures Postfix(GroupedNegativeExponentTree) == [Num(6.0), Num(2.0), Op(Plus), Num(2.0), Num(3.0), Op(Minus), Op(Power)]
  {
  }

  lemma GroupedNegativeExponent(pow: PowFn)
    requires pow(8.0, -1.0) == 0.125
    ensures Convert([LParen, Num(6.0), Op(Plus), Num(2.0), RParen, Op(Power), LParen, Num(2.0), Op(Minus), Num(3.0), RParen])
         == Ok([Num(6.0), Num(2.0), Op(Plus), Num(2.0), Num(3.0), Op(Minus), Op(Power)])
    ensures Evaluate([Num(6.0), Num(2.0), Op(Plus), Num(2.0), Num(3.0), Op(Minus), Op(Power)], pow) == Ok(0.125)
  {
    assert WellGrouped(GroupedNegativeExponentTree);
    GroupedNegativeExponentInfix();
    GroupedNegativeExponentPostfix();
    ConvertInfix(GroupedNegativeExponentTree);
    assert Eval(GroupedNegativeExponentTree, pow) == Ok(0.125);
    EvaluatePostfix(GroupedNegativeExponentTree, pow);
  }

  /** `6 + 2 ^ 2 - 3 * 5 / 5` */
  const MixedPrecedenceTree := Bin(Minus, Bin(Plus, Lit(6.0), Bin(Power, Lit(2.0), Lit(2.0))), Bin(Divide, Bin(Times, Lit(3.0), Lit(5.0)), Lit(5.0)))

  lemma MixedPrecedenceInfix()
    ensures Infix(MixedPrecedenceTree) == [Num(6.0), Op(Plus), Num(2.0), Op(Power), Num(2.0), Op(Minus), Num(3.0), Op(Times), Num(5.0), Op(Divide), Num(5.0)]
  {
  }

  lemma MixedPrecedencePostfix()
    ensures Postfix(MixedPrecedenceTree) == [Num(6.0), Num(2.0), Num(2.0), Op(Power), Op(Plus), Num(3.0), Num(5.0), Op(Times), Num(5.0), Op(Divide), Op(Minus)]
  {
  }

  lemma MixedPrecedence(pow: PowFn)
    requires pow(2.0, 2.0) == 4.0
    ensures Convert([Num(6.0), Op(Plus), Num(2.0), Op(Power), Num(2.0), Op(Minus), Num(3.0), Op(Times), Num(5.0), Op(Divide), Num(5.0)])
         == Ok([Num(6.0), Num(2.0), Num(2.0), Op(Power), Op(Plus), Num(3.0), Num(5.0), Op(Times), Num(5.0), Op(Divide), Op(Minus)])
    ensures Evaluate([Num(6.0), Num(2.0), Num(2.0), Op(Power), Op(Plus), Num(3.0), Num(5.0), Op(Times), Num(5.0), Op(Divide), Op(Minus)], pow) == Ok(7.0)
  {
    assert WellGrouped(MixedPrecedenceTree);
    MixedPrecedenceInfix();
    MixedPrecedencePostfix();
    ConvertInfix(MixedPrecedenceTree);
    assert Eval(MixedPrecedenceTree, pow) == Ok(7.0);
    EvaluatePostfix(MixedPrecedenceTree, pow);
  }

  /** `( 6 + 2 ) ^ ( ( 2 - 3 ) * 5 / 5 )` */
  const NestedGroupsTree := Bin(Power, Group(Bin(Plus, Lit(6.0), Lit(2.0))), Group(Bin(Divide, Bin(Times, Group(Bin(Minus, Lit(2.0), Lit(3.0))), Lit(5.0)), Lit(5.0))))

  lemma NestedGroupsInfix()
    ensures Infix(NestedGroupsTree) == [LParen, Num(6.0), Op(Plus), Num(2.0), RParen, Op(Power), LParen, LParen, Num(2.0), Op(Minus), Num(3.0), RParen, Op(Times), Num(5.0), Op(Divide), Num(5.0), RParen]
  {
  }

  lemma NestedGroupsPostfix()
    ensures Postfix(NestedGroupsTree) == [Num(6.0), Num(2.0), Op(Plus), Num(2.0), Num(3.0), Op(Minus), Num(5.0), Op(Times), Num(5.0), Op(Divide), Op(Power)]
  {
  }

  lemma NestedGroups(pow: PowFn)
    requires pow(8.0, -1.0) == 0.125
    ensures Convert([LParen, Num(6.0), Op(Plus), Num(2.0), RParen, Op(Power), LParen, LParen, Num(2.0), Op(Minus), Num(3.0), RParen, Op(Times), Num(5.0), Op(Divide), Num(5.0), RParen])
         == Ok([Num(6.0), Num(2.0), Op(Plus), Num(2.0), Num(3.0), Op(Minus), Num(5.0), Op(Times), Num(5.0), Op(Divide), Op(Power)])
    ensures Evaluate([Num(6.0), Num(2.0), Op(Plus), Num(2.0), Num(3.0), Op(Minus), Num(5.0), Op(Times), Num(5.0), Op(Divide), Op(Power)], pow) == Ok(0.125)
  {
    assert WellGrouped(NestedGroupsTree);
    NestedGroupsInfix();
    NestedGroupsPostfix();
    ConvertInfix(NestedGroupsTree);
    assert Eval(NestedGroupsTree, pow) == Ok(0.125);
    EvaluatePostfix(NestedGroupsTree, pow);
  }

  /* ---------- Error paths ---------- */

  /** `5 / 0`: converts, then stops at the zero divisor. */
  const DivideByZeroTree := Bin(Divide, Lit(5.0), Lit(0.0))

  lemma DivisionByZero(pow: PowFn)
    ensures Convert([Num(5.0), Op(Divide), Num(0.0)]) == Ok([Num(5.0), Num(0.0), Op(Divide)])
    ensures Evaluate([Num(5.0), Num(0.0), Op(Divide)], pow) == Err(DivideByZero)
  {
    assert WellGrouped(DivideByZeroTree);
    assert Infix(DivideByZeroTree) == [Num(5.0), Op(Divide), Num(0.0)];
    assert Postfix(DivideByZeroTree) == [Num(5.0), Num(0.0), Op(Divide)];
    ConvertInfix(DivideByZeroTree);
    EvaluatePostfix(DivideByZeroTree, pow);
  }

  /** `x ^ 0`: a zero exponent is rejected like a zero divisor, whatever the
      power function would give. */
  lemma ZeroExponent(x: real, pow: PowFn)
    ensures Evaluate([Num(x), Num(0.0), Op(Power)], pow) == Err(DivideByZero)
  {
    assert [Num(x), Num(0.0), Op(Power)] == [Num(x)] + ([Num(0.0)] + [Op(Power)]);
    EvalOne(Num(x), [Num(0.0)] + [Op(Power)], [], pow);
    assert [] + [x] == [x];
    EvalOne(Num(0.0), [Op(Power)], [x], pow);
    assert [x] + [0.0] == [x, 0.0];
    EvalOne(Op(Power), [], [x, 0.0], pow);
  }

  /** `x )`: the `)` finds no `(`. */
  lemma UnmatchedClose(x: real)
    ensures Convert([Num(x), RParen]) == Err(UnmatchedRightParen)
  {
    assert [Num(x), RParen] == [Num(x)] + [RParen];
    RunOne(Num(x), [RParen], Start);
    assert Start.out + [Num(x)] == [Num(x)];
    assert [RParen] == [RParen] + [];
    assert Step(ConvState([Num(x)], []), RParen) == Err(UnmatchedRightParen);
  }

  /** Reading `( x` leaves the `(` on the stack. */
  lemma ReadOpenThenNumber(x: real, rest: seq<Token>)
    ensures Run([LParen, Num(x)] + rest, Start) == Run(rest, ConvState([Num(x)], [LParen]))
  {
    assert [LParen, Num(x)] + rest == [LParen] + ([Num(x)] + rest);
    assert Start.stack + [LParen] == [LParen];
    RunOne(LParen, [Num(x)] + rest, Start);
    assert Start.out + [Num(x)] == [Num(x)];
    RunOne(Num(x), rest, ConvState([], [LParen]));
  }

  /** Reading `+ y` above a `(` pops nothing. */
  lemma ReadPlusAboveOpen(x: real, y: real)
    ensures Run([Op(Plus), Num(y)], ConvState([Num(x)], [LParen]))
         == Ok(ConvState([Num(x), Num(y)], [LParen, Op(Plus)]))
  {
    var afterX := ConvState([Num(x)], [LParen]);
    assert Kept(Plus, [LParen]) == 1;
    assert [LParen][1..] == [] && [LParen][..1] == [LParen];
    assert [Num(x)] + Reversed<Token>([]) == [Num(x)];
    assert PopOperators(Plus, afterX) == afterX;
    assert [LParen] + [Op(Plus)] == [LParen, Op(Plus)];
    assert [Op(Plus), Num(y)] == [Op(Plus)] + [Num(y)];
    RunOne(Op(Plus), [Num(y)], afterX);
    assert [Num(x)] + [Num(y)] == [Num(x), Num(y)];
    assert [Num(y)] == [Num(y)] + [];
    RunOne(Num(y), [], ConvState([Num(x)], [LParen, Op(Plus)]));
  }

  /** `( x + y`: the `(` is flushed into the output. */
  lemma UnmatchedOpen(x: real, y: real)
    ensures Convert([LParen, Num(x), Op(Plus), Num(y)]) == Ok([Num(x), Num(y), Op(Plus), LParen])
  {
    assert [LParen, Num(x), Op(Plus), Num(y)] == [LParen, Num(x)] + [Op(Plus), Num(y)];
    ReadOpenThenNumber(x, [Op(Plus), Num(y)]);
    ReadPlusAboveOpen(x, y);
    var popped := Reversed([LParen, Op(Plus)]);
    assert |popped| == 2 && popped[0] == Op(Plus) && popped[1] == LParen;
    assert [Num(x), Num(y)] + popped == [Num(x), Num(y), Op(Plus), LParen];
  }

  /** A `(` that reaches the evaluator is not a number. */
  lemma OpenParenInOutput(x: real, y: real, pow: PowFn)
    ensures Evaluate([Num(x), Num(y), Op(Plus), LParen], pow) == Err(NotANumber)
  {
    assert [Num(x), Num(y), Op(Plus), LParen] == [Num(x)] + ([Num(y)] + ([Op(Plus)] + [LParen]));
    EvalOne(Num(x), [Num(y)] + ([Op(Plus)] + [LParen]), [], pow);
    assert [] + [x] == [x];
    EvalOne(Num(y), [Op(Plus)] + [LParen], [x], pow);
    assert [x] + [y] == [x, y];
    EvalOne(Op(Plus), [LParen], [x, y], pow);
    assert [x, y][..0] + [x + y] == [x + y];
    assert [LParen] == [LParen] + [];
    EvalOne(LParen, [], [x + y], pow);
  }

  /** An operator with one value beneath it, two values and no operator, and
      no tokens at all. */
  lemma StackMisuse(x: real, y: real, pow: PowFn)
    ensures Evaluate([Num(x), Op(Plus)], pow) == Err(StackUnderflow)
    ensures Evaluate([Num(x), Num(y)], pow) == Err(TooManyValues)
    ensures Evaluate([], pow) == Err(EmptyStack)
  {
    assert [Num(x), Op(Plus)] == [Num(x)] + [Op(Plus)];
    EvalOne(Num(x), [Op(Plus)], [], pow);
    assert [] + [x] == [x];
    assert [Op(Plus)] == [Op(Plus)] + [];
    EvalOne(Op(Plus), [], [x], pow);
    assert [Num(x), Num(y)] == [Num(x)] + [Num(y)];
    EvalOne(Num(x), [Num(y)], [], pow);
    assert [Num(y)] == [Num(y)] + [];
    EvalOne(Num(y), [], [x], pow);
    assert [x] + [y] == [x, y];
  }
}
