/** Property lookup on the plain object literals (`{}`) the scripts use as
    dictionaries. Such an object answers `obj[key]` from its own properties
    and, failing that, from `Object.prototype`, so a handful of names are
    found in every dictionary even when nothing was stored under them. */
module JsObjects {

  /** The properties every object literal inherits from `Object.prototype`. */
  const PrototypeMembers: set<string> := {
    "constructor", "hasOwnProperty", "isPrototypeOf", "propertyIsEnumerable",
    "toLocaleString", "toString", "valueOf", "__proto__",
    "__defineGetter__", "__defineSetter__", "__lookupGetter__", "__lookupSetter__"
  }

  /** `obj[key]` is truthy, for a dictionary whose stored values are all
      truthy (objects, arrays, non-empty strings): either `key` was stored
      or it names an inherited member, all of which are functions or
      objects. */
  predicate Truthy<V>(obj: map<string, V>, key: string)
    ensures key !in PrototypeMembers ==> (Truthy(obj, key) <==> key in obj)
  {
    key in obj || key in PrototypeMembers
  }
}
