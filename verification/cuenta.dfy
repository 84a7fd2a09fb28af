/**
 The bank account `Cuenta`: an owner (`persona`), a `BigDecimal` balance
 (`saldo`) and a back-reference to a bank (`banco`), any of which may be null.

 The Java object is mutable; here an account is a value and every mutator is
 a function from the account before the call to the account after it. A call
 that throws is a `Step` whose `outcome` names the exception, paired with the
 state the object is left in when the exception escapes.
 */
module Cuentas {
  import opened Options
  import opened Decimals

  /** Identity of a `Banco` object; the bank itself is not part of this model. */
  type BancoRef = nat

  datatype Cuenta = Cuenta(persona: Option<string>, saldo: Option<Decimal>, banco: Option<BancoRef>)

  /** The message `debito` puts in its `DineroInsuficienteException`. */
  const MensajeDineroInsuficiente: string := "Dinero Insuficiente"

  /** How a call on the account ends: normally, with `DineroInsuficienteException`,
      or with the `NullPointerException` of dereferencing a null balance. */
  datatype Outcome = Ok | DineroInsuficiente(message: string) | NullPointer

  /** The account after a call, and how the call ended. */
  datatype Step = Step(cuenta: Cuenta, outcome: Outcome)

  /** An argument of `equals(Object)`: null, some `Cuenta`, or an object of another class. */
  datatype Object = Null | OfCuenta(cuenta: Cuenta) | Other

  /** `new Cuenta(persona, saldo)`: stores both arguments as given (nulls
      included); the bank stays unset. */
  function NewCuenta(persona: Option<string>, saldo: Option<Decimal>): (c: Cuenta)
    ensures c.persona == persona && c.saldo == saldo
    ensures c.banco.None?
  {
    Cuenta(persona, saldo, None)
  }

  /** `setPersona`: replaces the owner and nothing else. */
  function SetPersona(c: Cuenta, persona: Option<string>): (r: Cuenta)
    ensures r.persona == persona
    ensures r.saldo == c.saldo && r.banco == c.banco
  {
    c.(persona := persona)
  }

  /** `setSaldo`: replaces the balance and nothing else. */
  function SetSaldo(c: Cuenta, saldo: Option<Decimal>): (r: Cuenta)
    ensures r.saldo == saldo
    ensures r.persona == c.persona && r.banco == c.banco
  {
    c.(saldo := saldo)
  }

  /** `setBanco`: replaces the bank reference and nothing else. */
  function SetBanco(c: Cuenta, banco: Option<BancoRef>): (r: Cuenta)
    ensures r.banco == banco
    ensures r.persona == c.persona && r.saldo == c.saldo
  {
    c.(banco := banco)
  }

  /** `debito(monto)`. The new balance is stored by the chained assignment
      BEFORE it is checked, so when the exception is thrown the account keeps
      the negative balance. A null balance throws before anything is stored. */
  function Debito(c: Cuenta, monto: Decimal): (r: Step)
    ensures c.saldo.None? ==> r == Step(c, NullPointer)
    ensures c.saldo.Some? ==> r.cuenta.persona == c.persona && r.cuenta.banco == c.banco
    ensures c.saldo.Some? ==> r.cuenta.saldo.Some?
    ensures c.saldo.Some? ==> Value(r.cuenta.saldo.value) == Value(c.saldo.value) - Value(monto)
    ensures c.saldo.Some? ==> r.cuenta.saldo.value.scale == Max(c.saldo.value.scale, monto.scale)
    ensures c.saldo.Some? ==> (r.outcome == Ok <==> Value(monto) <= Value(c.saldo.value))
    ensures c.saldo.Some? && Value(monto) > Value(c.saldo.value) ==>
              r.outcome == DineroInsuficiente(MensajeDineroInsuficiente)
  {
    match c.saldo
    case None => Step(c, NullPointer)
    case Some(saldo) =>
      var nuevoSaldo := Subtract(saldo, monto);
      var stored := c.(saldo := Some(nuevoSaldo));
      if CompareTo(nuevoSaldo, Zero) < 0 then
        Step(stored, DineroInsuficiente(MensajeDineroInsuficiente))
      else
        Step(stored.(saldo := Some(nuevoSaldo)), Ok)
  }

  /** `credito(monto)`: adds the amount, whatever its sign; it never fails on
      a non-null balance. */
  function Credito(c: Cuenta, monto: Decimal): (r: Step)
    ensures c.saldo.None? ==> r == Step(c, NullPointer)
    ensures c.saldo.Some? ==> r.outcome == Ok
    ensures c.saldo.Some? ==> r.cuenta.persona == c.persona && r.cuenta.banco == c.banco
    ensures c.saldo.Some? ==> r.cuenta.saldo.Some?
    ensures c.saldo.Some? ==> Value(r.cuenta.saldo.value) == Value(c.saldo.value) + Value(monto)
    ensures c.saldo.Some? ==> r.cuenta.saldo.value.scale == Max(c.saldo.value.scale, monto.scale)
  {
    match c.saldo
    case None => Step(c, NullPointer)
    case Some(saldo) => Step(c.(saldo := Some(Add(saldo, monto))), Ok)
  }

  /** `equals(Object)`: false for a non-`Cuenta` argument and whenever this
      account's owner or balance is null; otherwise the owners must be equal
      strings and the balances `BigDecimal.equals` (same value, same scale).
      The bank plays no part. */
  function Equals(c: Cuenta, obj: Object): (r: bool)
    ensures r <==>
      && obj.OfCuenta?
      && c.persona.Some? && c.saldo.Some?
      && obj.cuenta.persona == c.persona
      && obj.cuenta.saldo.Some?
      && Value(obj.cuenta.saldo.value) == Value(c.saldo.value)
      && obj.cuenta.saldo.value.scale == c.saldo.value.scale
  {
    match obj
    case OfCuenta(o) =>
      if c.persona.None? || c.saldo.None? then false
      else
        && o.persona == c.persona
        && o.saldo.Some?
        && Decimals.Equals(c.saldo.value, o.saldo.value)
    case _ => false
  }
}
