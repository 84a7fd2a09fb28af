/**
 Properties relating several calls on `Cuenta`: what a debit and a credit of
 the same amount undo, what `equals` relates, and the scenarios the
 repository's unit tests check.
 */
module CuentaProperties {
  import opened Options
  import opened Decimals
  import opened Cuentas

  /** 1000.12345, the balance every unit test starts from. */
  const SaldoInicial: Decimal := Decimal(100012345, 5)

  // ---------------------------------------------------------------- debito

  /** Debiting exactly the whole balance succeeds (the check is a strict
      `< 0`) and leaves zero at the balance's scale. */
  lemma DebitoWholeBalance(c: Cuenta)
    requires c.saldo.Some?
    ensures Debito(c, c.saldo.value).outcome == Ok
    ensures Debito(c, c.saldo.value).cuenta.saldo == Some(Decimal(0, c.saldo.value.scale))
  {
  }

  /** The failure path is not rolled back: after `DineroInsuficiente` the
      account holds the negative balance `saldo - monto`, and its owner and
      bank are those it had. */
  lemma DebitoFailureCommitsNegativeBalance(c: Cuenta, monto: Decimal)
    requires c.saldo.Some?
    requires Value(monto) > Value(c.saldo.value)
    ensures Debito(c, monto).outcome == DineroInsuficiente("Dinero Insuficiente")
    ensures Debito(c, monto).cuenta == c.(saldo := Some(Subtract(c.saldo.value, monto)))
    ensures Value(Debito(c, monto).cuenta.saldo.value) < 0.0
  {
  }

  /** Whatever the outcome of the debit, crediting the same amount afterwards
      gives the starting account back with its balance's value restored, but
      written at the larger scale: when the amount has more decimals than the
      balance, the result is not `equals` to the start. */
  lemma CreditoUndoesDebito(c: Cuenta, monto: Decimal)
    requires c.saldo.Some?
    ensures Credito(Debito(c, monto).cuenta, monto).outcome == Ok
    ensures Credito(Debito(c, monto).cuenta, monto).cuenta
         == c.(saldo := Some(Rescale(c.saldo.value, Max(c.saldo.value.scale, monto.scale))))
    ensures monto.scale > c.saldo.value.scale ==>
              !Cuentas.Equals(Credito(Debito(c, monto).cuenta, monto).cuenta, OfCuenta(c))
  {
  }

  /** A credit followed by a debit of the same amount restores the balance's
      value, written at the larger scale (so not `equals` to the start when the
      amount has more decimals), and the debit fails exactly when the starting
      balance was already negative. */
  lemma DebitoUndoesCredito(c: Cuenta, monto: Decimal)
    requires c.saldo.Some?
    ensures Debito(Credito(c, monto).cuenta, monto).cuenta
         == c.(saldo := Some(Rescale(c.saldo.value, Max(c.saldo.value.scale, monto.scale))))
    ensures monto.scale > c.saldo.value.scale ==>
              !Cuentas.Equals(Debito(Credito(c, monto).cuenta, monto).cuenta, OfCuenta(c))
    ensures Debito(Credito(c, monto).cuenta, monto).outcome == Ok <==> Value(c.saldo.value) >= 0.0
  {
  }

  // ---------------------------------------------------------------- equals

  /** `equals` is symmetric. */
  lemma EqualsSymmetric(a: Cuenta, b: Cuenta)
    requires Cuentas.Equals(a, OfCuenta(b))
    ensures Cuentas.Equals(b, OfCuenta(a))
  {
  }

  /** `equals` is transitive. */
  lemma EqualsTransitive(a: Cuenta, b: Cuenta, c: Cuenta)
    requires Cuentas.Equals(a, OfCuenta(b)) && Cuentas.Equals(b, OfCuenta(c))
    ensures Cuentas.Equals(a, OfCuenta(c))
  {
  }

  /** `equals` is reflexive only on accounts whose owner and balance are both
      set: an account with a null owner or balance is not equal to itself. */
  lemma EqualsReflexiveIff(a: Cuenta)
    ensures Cuentas.Equals(a, OfCuenta(a)) <==> a.persona.Some? && a.saldo.Some?
  {
  }

  /** Two accounts equal under `equals` are the same account up to the bank
      reference: owner and balance agree structurally. */
  lemma EqualsMeansSameOwnerAndBalance(a: Cuenta, b: Cuenta)
    requires Cuentas.Equals(a, OfCuenta(b))
    ensures b.(banco := a.banco) == a
  {
  }

  /** Numerically equal balances at different scales make accounts unequal. */
  lemma EqualsIsScaleSensitive()
    ensures CompareTo(Decimal(10, 1), Decimal(100, 2)) == 0
    ensures !Cuentas.Equals(NewCuenta(Some("Juan"), Some(Decimal(10, 1))),
                    OfCuenta(NewCuenta(Some("Juan"), Some(Decimal(100, 2)))))
  {
  }

  /** Equal accounts stay equal, with the same outcome, after the same debit
      or credit. */
  lemma EqualsPreservedByDebitoCredito(a: Cuenta, b: Cuenta, monto: Decimal)
    requires Cuentas.Equals(a, OfCuenta(b))
    ensures Cuentas.Equals(Debito(a, monto).cuenta, OfCuenta(Debito(b, monto).cuenta))
    ensures Debito(a, monto).outcome == Debito(b, monto).outcome
    ensures Cuentas.Equals(Credito(a, monto).cuenta, OfCuenta(Credito(b, monto).cuenta))
  {
    EqualsMeansSameOwnerAndBalance(a, b);
  }

  // ---------------------------------------------------------------- scenarios

  // The scenarios that debit or credit take the fresh account as a parameter
  // pinned by `requires c == NewCuenta(...)` rather than writing the
  // constructor call inside the postcondition: applied to a literal account,
  // the verifier would try to evaluate the whole call on literals, which is
  // far more costly than reasoning from the operations' contracts.

  /** Two separately built accounts for "John Doe" with 8900.9997 are equal. */
  lemma SameConstructionScenario()
    ensures Cuentas.Equals(NewCuenta(Some("John Doe"), Some(Decimal(89009997, 4))),
                   OfCuenta(NewCuenta(Some("John Doe"), Some(Decimal(89009997, 4)))))
  {
  }

  /** 1000.12345 debited by 100 is exactly 900.12345, at scale 5. */
  lemma DebitoScenario(c: Cuenta)
    requires c == NewCuenta(Some("Juan"), Some(SaldoInicial))
    ensures Debito(c, FromInt(100)) == Step(Cuenta(Some("Juan"), Some(Decimal(90012345, 5)), None), Ok)
  {
  }

  /** 1000.12345 credited by 100 is exactly 1100.12345, at scale 5. */
  lemma CreditoScenario(c: Cuenta)
    requires c == NewCuenta(Some("Juan"), Some(SaldoInicial))
    ensures Credito(c, FromInt(100)) == Step(Cuenta(Some("Juan"), Some(Decimal(110012345, 5)), None), Ok)
  {
  }

  /** Debiting 1500 from 1000.12345 throws with "Dinero Insuficiente" and
      leaves the account at -499.87655. */
  lemma DineroInsuficienteScenario(c: Cuenta)
    requires c == NewCuenta(Some("Juan"), Some(SaldoInicial))
    ensures Debito(c, FromInt(1500))
         == Step(Cuenta(Some("Juan"), Some(Decimal(-49987655, 5)), None),
                 DineroInsuficiente("Dinero Insuficiente"))
  {
  }

  /** Each amount of the parameterised debit tests, taken from a fresh
      1000.12345, succeeds and leaves a strictly positive balance. */
  lemma ParameterisedDebitoScenario(c: Cuenta)
    requires c == NewCuenta(Some("Juan"), Some(SaldoInicial))
    ensures forall monto | monto in [FromInt(100), FromInt(200), FromInt(300), FromInt(500),
                                     FromInt(700), Decimal(10001234, 4)] ::
      && Debito(c, monto).outcome == Ok
      && CompareTo(Debito(c, monto).cuenta.saldo.value, Zero) > 0
  {
  }

  /** Rows `300,300` and `1000.12345,1000.12345` of the inline CSV debit test:
      the balance is set, then the whole of it is debited. The debit succeeds
      and the balance compares equal to zero, so the test's final assertion,
      `compareTo(ZERO) > 0`, cannot hold for these rows. */
  lemma WholeBalanceCsvRowsScenario(c: Cuenta)
    ensures forall saldo | saldo in [FromInt(300), SaldoInicial] ::
      && Debito(SetSaldo(c, Some(saldo)), saldo).outcome == Ok
      && CompareTo(Debito(SetSaldo(c, Some(saldo)), saldo).cuenta.saldo.value, Zero) == 0
  {
  }
}
