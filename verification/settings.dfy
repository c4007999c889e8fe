/**
  The configuration object, its validation (`checkParams` and `error` in
  dist/magic-grid.cjs.js) and the falsy-value defaulting of the constructor.
  JavaScript truthiness is written out: a missing property is `None`, and the
  empty string, `0` and `false` are falsy like a missing one.
 */
module Settings {
  import opened Wrappers

  /** The options a caller passes; every property may be absent. */
  datatype Options = Options(
    container: Option<string>,
    items: Option<int>,
    staticMode: Option<bool>,
    gutter: Option<nat>,
    maxColumns: Option<nat>,
    useMin: Option<bool>,
    animate: Option<bool>)

  /** A boolean option that is truthy. */
  predicate Flag(b: Option<bool>) {
    b == Some(true)
  }

  /** `config.container` is truthy: present and not the empty selector. */
  predicate HasContainer(o: Options) {
    o.container.Some? && |o.container.value| > 0
  }

  /** `config.items` is truthy: present and not zero. */
  predicate HasItems(o: Options) {
    o.items.Some? && o.items.value != 0
  }

  /** Both checks of `checkParams` pass. */
  predicate Valid(o: Options) {
    HasContainer(o) && (HasItems(o) || Flag(o.staticMode))
  }

  const MessageHead: string := "Missing property '"
  const MessageTail: string := "' in MagicGrid config"

  /** `error`: the message of the exception thrown for a missing property. */
  function ErrorMessage(prop: string): (m: string)
    ensures |m| == |MessageHead| + |prop| + |MessageTail|
    ensures m[|MessageHead|..|MessageHead| + |prop|] == prop
  {
    MessageHead + prop + MessageTail
  }

  /** Reads the property name back out of an `ErrorMessage`, if `m` is one. */
  function MissingProperty(m: string): Option<string> {
    if |m| >= |MessageHead| + |MessageTail|
       && m[..|MessageHead|] == MessageHead
       && m[|m| - |MessageTail|..] == MessageTail
    then Some(m[|MessageHead|..|m| - |MessageTail|])
    else None
  }

  /** The message names exactly the missing property. */
  lemma MessageNamesProperty(prop: string)
    ensures MissingProperty(ErrorMessage(prop)) == Some(prop)
  {
    var m := ErrorMessage(prop);
    assert m[..|MessageHead|] == MessageHead;
    assert m[|m| - |MessageTail|..] == MessageTail;
  }

  /**
    `checkParams`: a missing container is reported first; otherwise the
    configuration fails only when both `items` and `static` are falsy.
   */
  function CheckParams(o: Options): (r: Outcome<string>)
    ensures r.Pass? <==> Valid(o)
    ensures !HasContainer(o) ==> r == Fail(ErrorMessage("container"))
    ensures HasContainer(o) && !HasItems(o) && !Flag(o.staticMode) ==> r == Fail(ErrorMessage("items or static"))
  {
    if !HasContainer(o) then Fail(ErrorMessage("container"))
    else if !HasItems(o) && !Flag(o.staticMode) then Fail(ErrorMessage("items or static"))
    else Pass
  }

  /** The gutter used when `config.gutter` is falsy. */
  const DefaultGutter: nat := 25

  /** `config.gutter || 25`: a falsy gutter (missing or zero) becomes 25. */
  function GutterOf(o: Options): (g: nat)
    ensures g >= 1
    ensures o.gutter.Some? && o.gutter.value > 0 ==> g == o.gutter.value
    ensures o.gutter.None? || o.gutter == Some(0) ==> g == DefaultGutter
  {
    if o.gutter.Some? && o.gutter.value != 0 then o.gutter.value else DefaultGutter
  }

  /** `config.maxColumns || false`: zero stands for "no cap", as a falsy value does. */
  function MaxColumnsOf(o: Options): (m: nat)
    ensures m == 0 <==> o.maxColumns.None? || o.maxColumns == Some(0)
    ensures o.maxColumns.Some? ==> m == o.maxColumns.value
  {
    if o.maxColumns.Some? then o.maxColumns.value else 0
  }
}
