/**
 * Error handling (src/error_handler.py): the exception family, the guard that
 * runs a call and turns its exception into a logged default or a domain error,
 * and input validation against named predicates.
 */
module Errors {
  import opened Wrappers
  import opened Text
  import opened JsonValue

  /** The base class `LegalSearchError` and its seven direct subclasses. */
  datatype ErrorClass =
    | LegalSearch
    | ConfigErr
    | CrawlerErr
    | ProcessorErr
    | IndexerErr
    | SearchErr
    | ApiErr
    | ValidationErr

  /** `issubclass(c, ancestor)` within the family. */
  predicate IsSubclass(c: ErrorClass, ancestor: ErrorClass)
  {
    c == ancestor || ancestor == LegalSearch
  }

  /** An instance of the family: class, message and details. */
  datatype DomainError = DomainError(cls: ErrorClass, message: string, details: map<string, Json>)

  /** `error_class(message, details)`: details default to an empty mapping. */
  function NewError(cls: ErrorClass, message: string, details: Option<map<string, Json>>): (e: DomainError)
    ensures e.cls == cls && e.message == message
    ensures e.details == if details.Some? then details.value else map[]
  {
    DomainError(cls, message, if details.Some? && details.value != map[] then details.value else map[])
  }

  /** Every class of the family is a `LegalSearchError`; no subclass is another subclass. */
  lemma FamilyIsRooted(c: ErrorClass, d: ErrorClass)
    ensures IsSubclass(c, LegalSearch)
    ensures c != d && d != LegalSearch ==> !IsSubclass(c, d)
  {
  }

  /** An exception raised by a guarded call. */
  datatype Exception = Exception(typeName: string, text: string, traceback: string)

  /** What a guarded call did: returned a value or raised. */
  datatype Outcome<R> = Returned(value: R) | Raised(exc: Exception)

  /** One record written to the logger. */
  datatype LogRecord = LogRecord(level: int, text: string)

  function ExceptionDetails(e: Exception): map<string, Json>
  {
    map["exception_type" := JStr(e.typeName), "exception_message" := JStr(e.text),
        "traceback" := JStr(e.traceback)]
  }

  /**
   * `safe_execute`: the call's value passes through unlogged; an exception is
   * logged once at `logLevel` and becomes either `defaultReturn` or, when
   * `raiseError` is set, an `errorClass` error carrying the exception's details.
   */
  function SafeExecute<R>(call: Outcome<R>, errorMessage: string, defaultReturn: R,
                          errorClass: ErrorClass, logLevel: int, raiseError: bool)
    : (r: (Result<R, DomainError>, seq<LogRecord>))
    ensures call.Returned? ==> r.0 == Success(call.value) && r.1 == []
    ensures call.Raised? ==> r.1 == [LogRecord(logLevel, errorMessage + ": " + call.exc.text)]
    ensures call.Raised? && !raiseError ==> r.0 == Success(defaultReturn)
    ensures call.Raised? && raiseError ==>
      r.0 == Failure(DomainError(errorClass, errorMessage, ExceptionDetails(call.exc)))
  {
    match call
    case Returned(v) => (Success(v), [])
    case Raised(e) =>
      var log := [LogRecord(logLevel, errorMessage + ": " + e.text)];
      if raiseError then (Failure(NewError(errorClass, errorMessage, Some(ExceptionDetails(e)))), log)
      else (Success(defaultReturn), log)
  }

  /** The names of the validators `value` fails, in the order they are listed. */
  function FailedNames<V>(value: V, validators: seq<(string, V -> bool)>): seq<string>
    decreases |validators|
  {
    if validators == [] then []
    else
      var last := validators[|validators| - 1];
      FailedNames(value, validators[..|validators| - 1]) + (if last.1(value) then [] else [last.0])
  }

  /** A failed name belongs to a failing validator, and every failing validator's name is reported. */
  lemma {:induction false} FailedNamesExact<V>(value: V, validators: seq<(string, V -> bool)>)
    ensures forall n :: n in FailedNames(value, validators) ==>
      exists i :: 0 <= i < |validators| && validators[i].0 == n && !validators[i].1(value)
    ensures forall i :: 0 <= i < |validators| && !validators[i].1(value) ==>
      validators[i].0 in FailedNames(value, validators)
    ensures FailedNames(value, validators) == [] <==> forall i :: 0 <= i < |validators| ==> validators[i].1(value)
    decreases |validators|
  {
    if validators != [] {
      var front := validators[..|validators| - 1];
      var last := validators[|validators| - 1];
      FailedNamesExact(value, front);
      forall n | n in FailedNames(value, validators)
        ensures exists i :: 0 <= i < |validators| && validators[i].0 == n && !validators[i].1(value)
      {
        if n in FailedNames(value, front) {
          var i :| 0 <= i < |front| && front[i].0 == n && !front[i].1(value);
          assert validators[i] == front[i];
        } else {
          assert validators[|validators| - 1].0 == n;
        }
      }
      forall i | 0 <= i < |validators| && !validators[i].1(value)
        ensures validators[i].0 in FailedNames(value, validators)
      {
        if i < |front| { assert front[i] == validators[i]; }
      }
      if FailedNames(value, validators) == [] {
        forall i | 0 <= i < |validators| ensures validators[i].1(value) {
          if i < |front| { assert front[i] == validators[i]; }
        }
      }
    }
  }

  /**
   * `validate_input`: runs every validator in order and raises a
   * `ValidationError` naming the failing ones when there is any. `shown` is
   * `str(value)`.
   */
  method ValidateInput<V>(value: V, shown: string, validators: seq<(string, V -> bool)>, errorMessage: string)
    returns (r: Result<(), DomainError>)
    ensures r.Success? <==> forall i :: 0 <= i < |validators| ==> validators[i].1(value)
    ensures r.Failure? ==> r.error == NewError(ValidationErr,
      errorMessage + ": " + Join(FailedNames(value, validators), ", "),
      Some(map["value" := JStr(shown), "failed_validations" := StrArray(FailedNames(value, validators))]))
  {
    var errors: seq<string> := [];
    var i := 0;
    while i < |validators|
      invariant 0 <= i <= |validators|
      invariant errors == FailedNames(value, validators[..i])
    {
      assert validators[..i + 1][..i] == validators[..i];
      if !validators[i].1(value) {
        errors := errors + [validators[i].0];
      }
      i := i + 1;
    }
    assert validators[..i] == validators;
    FailedNamesExact(value, validators);
    if errors != [] {
      var details := map["value" := JStr(shown), "failed_validations" := StrArray(errors)];
      r := Failure(NewError(ValidationErr, errorMessage + ": " + Join(errors, ", "), Some(details)));
    } else {
      r := Success(());
    }
  }
}
