# Cuenta: a bank account over exact decimals

This project models the bank-account class `Cuenta` of the JUnit playground
repository. An account has an owner (`persona`), a balance (`saldo`, a
`java.math.BigDecimal`) and a reference to its bank (`banco`). Each of the
three may be null. The class has:

- a constructor;
- getters and setters;
- `debito`, which subtracts an amount and throws `DineroInsuficienteException("Dinero Insuficiente")` when the result is negative;
- `credito`, which adds an amount without any check;
- a value-based `equals`.

Files:

- `options.dfy` (module `Options`): `Option`, which stands in for Java's nullable references.
- `decimal.dfy` (module `Decimals`): the part of `BigDecimal` the account uses.
  - A `Decimal` is an unscaled integer with a scale. It denotes the exact number `unscaled / 10^scale`, given by the ghost function `Value`.
  - `Add` and `Subtract` align both operands to the larger scale and are exact.
  - `CompareTo` compares numeric values only.
  - `Equals` is scale-sensitive, like `BigDecimal.equals`: 1.0 is not equal to 1.00.
  - Every operation is computed on integers alone. Its contract states the result's `Value`, so the real numbers serve only as the specification.
- `cuenta.dfy` (module `Cuentas`): the account.
  - The Java object is mutable. Here an account is an immutable value, and each mutator is a function from the state before the call to the state after it.
  - A call returns a `Step`: the new account plus an `Outcome`, which is `Ok`, `DineroInsuficiente(message)` or `NullPointer`.
  - The getters are the datatype's fields.
  - `equals(Object)` takes an `Object` argument: null, a `Cuenta`, or an object of another class.
- `cuenta_properties.dfy` (module `CuentaProperties`): lemmas that relate several calls, plus the scenarios the repository's unit tests check. Test literals such as `new BigDecimal("1000.12345")` are written structurally, e.g. `Decimal(100012345, 5)`.

In `debito`, the chained assignment at `Cuenta.java:43` stores
`saldo - monto` *before* the check at line 44. So a failed `debito` is not
rolled back: when `DineroInsuficienteException` is thrown, the account is left
holding the negative balance. `Cuentas.Debito` states this and
`CuentaProperties.DebitoFailureCommitsNegativeBalance` proves it.

## Model

| member | source | states |
|---|---|---|
| Decimals.FromInt | src/test/java/cl/jpino/junit5app/models/CuentaTest.java:94 | `new BigDecimal(int)` denotes exactly that integer, at scale 0 |
| Decimals.Add | src/main/java/cl/jpino/junit5app/models/Cuenta.java:51 | `BigDecimal.add` is exact: the result's value is the sum of the operands' values, at the larger of the two scales |
| Decimals.Subtract | src/main/java/cl/jpino/junit5app/models/Cuenta.java:43 | `BigDecimal.subtract` is exact: the result's value is the difference, at the larger of the two scales |
| Decimals.CompareTo | src/main/java/cl/jpino/junit5app/models/Cuenta.java:44 | `compareTo` returns -1, 0 or 1 exactly as the first number is less than, equal to or greater than the second, whatever the scales |
| Decimals.Equals | src/main/java/cl/jpino/junit5app/models/Cuenta.java:64 | `BigDecimal.equals` holds exactly when the values are equal and the scales are equal |
| Decimals.EqualsImpliesCompareZero | src/main/java/cl/jpino/junit5app/models/Cuenta.java:64 | decimals that are `equals` also compare as equal |
| Decimals.CompareZeroNotEquals | src/main/java/cl/jpino/junit5app/models/Cuenta.java:64 | the converse fails: 1.0 and 1.00 compare as equal but are not `equals` |
| Decimals.AddUndoesSubtract | src/main/java/cl/jpino/junit5app/models/Cuenta.java:42-52 | adding back an amount that was subtracted gives the original decimal, rewritten at the larger scale |
| Cuentas.NewCuenta | src/main/java/cl/jpino/junit5app/models/Cuenta.java:13-16 | the constructor stores the given owner and balance, nulls included, and leaves the bank unset |
| Cuentas.SetPersona | src/main/java/cl/jpino/junit5app/models/Cuenta.java:22-24 | `setPersona` replaces the owner; balance and bank are unchanged |
| Cuentas.SetSaldo | src/main/java/cl/jpino/junit5app/models/Cuenta.java:30-32 | `setSaldo` replaces the balance; owner and bank are unchanged |
| Cuentas.SetBanco | src/main/java/cl/jpino/junit5app/models/Cuenta.java:38-40 | `setBanco` replaces the bank reference; owner and balance are unchanged |
| Cuentas.Debito | src/main/java/cl/jpino/junit5app/models/Cuenta.java:42-48 | with a null balance, the call throws `NullPointerException` and changes nothing. Otherwise the stored balance becomes exactly old balance minus amount, at the larger scale, on both paths. The call succeeds exactly when amount ≤ balance, and throws "Dinero Insuficiente" when amount > balance. Owner and bank are unchanged |
| Cuentas.Credito | src/main/java/cl/jpino/junit5app/models/Cuenta.java:50-52 | with a null balance, the call throws `NullPointerException` and changes nothing. Otherwise it always succeeds, for any sign of the amount. The balance becomes exactly old balance plus amount, at the larger scale. Owner and bank are unchanged |
| Cuentas.Equals | src/main/java/cl/jpino/junit5app/models/Cuenta.java:56-65 | false for a null or non-`Cuenta` argument, and false when this owner or balance is null. Otherwise it holds exactly when the owners are equal and the balances have equal value and equal scale; the bank is ignored |
| CuentaProperties.DebitoWholeBalance | src/main/java/cl/jpino/junit5app/models/Cuenta.java:44 | the comparison is strict: debiting the whole balance succeeds and leaves zero at the balance's scale |
| CuentaProperties.DebitoFailureCommitsNegativeBalance | src/main/java/cl/jpino/junit5app/models/Cuenta.java:43-45 | when amount > balance, the call throws "Dinero Insuficiente", yet the account already holds `saldo - monto`, a negative number; only the balance differs from before |
| CuentaProperties.CreditoUndoesDebito | src/main/java/cl/jpino/junit5app/models/Cuenta.java:42-52 | after a debit followed by a credit of the same amount, whatever the debit's outcome, the credit succeeds and owner and bank are unchanged. The balance's value is restored, written at the larger of the two scales, so the account is not `equals` to the start when the amount has more decimals |
| CuentaProperties.DebitoUndoesCredito | src/main/java/cl/jpino/junit5app/models/Cuenta.java:42-52 | after a credit followed by a debit of the same amount, owner and bank are unchanged. The balance's value is restored, written at the larger of the two scales, so the account is not `equals` to the start when the amount has more decimals. That debit fails exactly when the starting balance was negative |
| CuentaProperties.EqualsSymmetric | src/main/java/cl/jpino/junit5app/models/Cuenta.java:56-65 | `equals` between accounts is symmetric |
| CuentaProperties.EqualsTransitive | src/main/java/cl/jpino/junit5app/models/Cuenta.java:56-65 | `equals` between accounts is transitive |
| CuentaProperties.EqualsReflexiveIff | src/main/java/cl/jpino/junit5app/models/Cuenta.java:61-63 | an account equals itself exactly when its owner and balance are both non-null |
| CuentaProperties.EqualsMeansSameOwnerAndBalance | src/main/java/cl/jpino/junit5app/models/Cuenta.java:64 | equal accounts have identical owner and balance; they can differ only in the bank |
| CuentaProperties.EqualsIsScaleSensitive | src/main/java/cl/jpino/junit5app/models/Cuenta.java:64 | accounts with balances 1.0 and 1.00 compare as numerically equal but are not `equals` |
| CuentaProperties.EqualsPreservedByDebitoCredito | src/main/java/cl/jpino/junit5app/models/Cuenta.java:42-65 | equal accounts stay equal after the same debit or credit, and the debit has the same outcome on both |
| CuentaProperties.SameConstructionScenario | src/test/java/cl/jpino/junit5app/models/CuentaTest.java:83-87 | two separately built "John Doe" accounts with balance 8900.9997 are `equals` |
| CuentaProperties.DebitoScenario | src/test/java/cl/jpino/junit5app/models/CuentaTest.java:93-98 | 1000.12345 minus 100 succeeds and leaves exactly 900.12345, at scale 5 |
| CuentaProperties.CreditoScenario | src/test/java/cl/jpino/junit5app/models/CuentaTest.java:101-108 | 1000.12345 plus 100 leaves exactly 1100.12345, at scale 5 |
| CuentaProperties.DineroInsuficienteScenario | src/test/java/cl/jpino/junit5app/models/CuentaTest.java:112-120 | debiting 1500 from 1000.12345 throws "Dinero Insuficiente" and leaves -499.87655 stored |
| CuentaProperties.ParameterisedDebitoScenario | src/test/java/cl/jpino/junit5app/models/CuentaTest.java:322-329 | debiting each of 100, 200, 300, 500, 700 and 1000.1234 from a fresh 1000.12345 succeeds and leaves a positive balance |
| CuentaProperties.WholeBalanceCsvRowsScenario | src/test/java/cl/jpino/junit5app/models/CuentaTest.java:358-369 | after `setSaldo(300)` then `debito(300)`, and after `setSaldo(1000.12345)` then `debito(1000.12345)`, the debit succeeds and the balance compares equal to zero, not greater |

## Left out

- `Banco`, with `transferir` and `addCuenta`: that class is not part of this model. The bank is only an identity (`BancoRef`) held by the `banco` field.
- `DineroInsuficienteException`: that class is not part of this model. It appears only as the `DineroInsuficiente(message)` outcome.
- Object identity: accounts are values. Two references to one object, and two distinct objects with equal fields, cannot be told apart.
- A null `monto` argument to `debito` or `credito`: every amount here is a non-null `Decimal`. A null balance is modelled, as the `NullPointer` outcome.
- `hashCode`: it is not overridden in the class.
- `toPlainString`, `doubleValue` and `intValue`, used in some test assertions: balances are checked structurally, by unscaled value and scale.
- Negative `BigDecimal` scales (`new BigDecimal("1E+3")` has scale -3): the scale here is a `nat`. The account passes such values through its constructor, `setSaldo` and the amounts unchanged, but neither the tests nor this model use them.
- Parsing decimal strings (`new BigDecimal("…")`): test literals are written structurally.
- The test harness's conditional, repeated and file-driven tests, and its console output. They exercise no behaviour beyond the scenarios above.
- The inline `@CsvSource` test `testDebitoCuentaCsvSource2` (`CuentaTest.java:358-369`) is not modelled as a passing scenario. Its rows `300,300` and `1000.12345,1000.12345` debit the whole balance and then assert `compareTo(ZERO) > 0`. `CuentaProperties.WholeBalanceCsvRowsScenario` shows that those balances compare equal to zero, so those assertions cannot hold.
- Concurrency: the class has none.
