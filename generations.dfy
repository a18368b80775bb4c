/**
 * How the two generations' envelope checks relate: the newer one runs the
 * legacy checks first, with the same codes and messages, and then checks
 * headers and cookies.
 */
module Generations {
  import opened JsValues
  import LibDispatcher
  import LegacyApiView

  /**
   * A request the newer dispatcher accepts is accepted by the legacy one; a
   * request the legacy one rejects is rejected by the newer one with the same
   * error; and a request only the newer one rejects fails on headers (5) or
   * cookies (6).
   */
  lemma EnvelopeChecksRefine(rd: Value)
    ensures LibDispatcher.ValidateRequestData(rd).Ok? ==> LegacyApiView.Validate(rd).Ok?
    ensures LegacyApiView.Validate(rd).Err? ==> LibDispatcher.ValidateRequestData(rd) == LegacyApiView.Validate(rd)
    ensures LegacyApiView.Validate(rd).Ok? && LibDispatcher.ValidateRequestData(rd).Err? ==>
              LibDispatcher.ValidateRequestData(rd).error.code in {Num(5), Num(6)}
  {
  }

  /** A request both accept gets the same `data` default, `{}` for a falsy value, and the same names. */
  lemma SameRequestFields(rd: Value)
    requires LibDispatcher.ValidateRequestData(rd).Ok?
    ensures var newer := LibDispatcher.RequestOf(rd);
            var legacy := LegacyApiView.RequestOf(rd);
            newer.entity == legacy.entity && newer.action == legacy.action && newer.methodName == legacy.methodName
            && newer.entityId == legacy.entityId && newer.data == legacy.data
  {
  }
}
