/**
 * Lookup in an object literal used as a table, `table[key] || fallback`.
 *
 * A plain object answers not only for the keys it lists but also for the
 * properties it inherits from `Object.prototype`. Each of those is a
 * function, or for `__proto__` the prototype object itself, and every one
 * of them is truthy, so a key naming one yields the inherited property and
 * never the fallback.
 */
module ObjectTable {
  import opened Wrappers

  /**
   * The properties of the Object prototype object in the ECMAScript
   * language specification, the legacy accessor methods included.
   */
  const InheritedNames: set<string> := {
    "constructor", "hasOwnProperty", "isPrototypeOf", "propertyIsEnumerable",
    "toLocaleString", "toString", "valueOf", "__proto__",
    "__defineGetter__", "__defineSetter__", "__lookupGetter__", "__lookupSetter__"
  }

  /** What `table[key] || fallback` yields: a value of the table, or an inherited property. */
  datatype Found<T> = Listed(value: T) | Inherited(name: string)

  /**
   * The lookup, given what the table itself lists for the key. Every value
   * the dashboard's tables list is truthy, so a listed value always wins.
   */
  function OrElse<T>(own: Option<T>, key: string, fallback: T): (r: Found<T>)
    ensures own.Some? ==> r == Listed(own.value)
    ensures own.None? && key in InheritedNames ==> r == Inherited(key)
    ensures own.None? && key !in InheritedNames ==> r == Listed(fallback)
  {
    match own
    case Some(v) => Listed(v)
    case None => if key in InheritedNames then Inherited(key) else Listed(fallback)
  }

  /** The class every status and priority badge starts with, and their fallback. */
  const BadgeBase: string := "status-badge"
}
