/**
 * The part of Mockito the mock definition talks to: its answer policies,
 * Spring's reset policy, and the `MockSettings` builder, whose state is
 * kept here as a record.
 */
module Mockito {
  import opened Wrappers
  import opened Reflection

  /** Mockito's `Answers`: what an unstubbed call on the mock does. */
  datatype Answers =
    | ReturnsDefaults
    | ReturnsSmartNulls
    | ReturnsMocks
    | ReturnsDeepStubs
    | CallsRealMethods
    | ReturnsSelf

  /** Spring's `MockReset`: reset the mock before or after each test, or never
      (Java's `NONE`). */
  datatype MockReset = Before | After | NoReset

  /** Everything a `MockSettings` builder has been told. `None` means the
      corresponding builder method was never called. */
  datatype MockSettings = MockSettings(
    reset: MockReset,
    name: Option<string>,
    extraInterfaces: Option<seq<ClassName>>,
    defaultAnswer: Option<Answers>,
    serializable: bool)

  /** A `MockSettings` builder: each call records one option in place. */
  class SettingsBuilder {
    var reset: MockReset
    var name: Option<string>
    var extraInterfaces: Option<seq<ClassName>>
    var defaultAnswer: Option<Answers>
    var serializable: bool

    function Snapshot(): (s: MockSettings)
      reads this
    {
      MockSettings(reset, name, extraInterfaces, defaultAnswer, serializable)
    }

    /** `MockReset.withSettings(reset)`: fresh settings bound to a reset policy. */
    constructor WithSettings(r: MockReset)
      ensures Snapshot() == MockSettings(r, None, None, None, false)
    {
      reset := r;
      name := None;
      extraInterfaces := None;
      defaultAnswer := None;
      serializable := false;
    }

    method Name(n: string)
      modifies this
      ensures Snapshot() == old(Snapshot()).(name := Some(n))
    {
      name := Some(n);
    }

    /** Mockito refuses an empty list of extra interfaces. */
    method ExtraInterfaces(cs: seq<ClassName>)
      requires |cs| > 0
      modifies this
      ensures Snapshot() == old(Snapshot()).(extraInterfaces := Some(cs))
    {
      extraInterfaces := Some(cs);
    }

    method DefaultAnswer(a: Answers)
      modifies this
      ensures Snapshot() == old(Snapshot()).(defaultAnswer := Some(a))
    {
      defaultAnswer := Some(a);
    }

    method Serializable()
      modifies this
      ensures Snapshot() == old(Snapshot()).(serializable := true)
    {
      serializable := true;
    }
  }
}
