/**
 * Property lookup `table[key]` on a JavaScript object literal. Besides its
 * own keys, a literal inherits the members of `Object.prototype`, so a key
 * such as "constructor" finds an inherited function rather than nothing.
 */
module JsObject {
  import Text

  /** The members every object literal inherits from `Object.prototype`. */
  const PrototypeKeys: set<string> := {
    "constructor", "__proto__", "__defineGetter__", "__defineSetter__",
    "__lookupGetter__", "__lookupSetter__", "hasOwnProperty", "isPrototypeOf",
    "propertyIsEnumerable", "toLocaleString", "toString", "valueOf"
  }

  /** What `table[key]` evaluates to. */
  datatype Lookup<V> = Own(value: V) | Inherited(key: string) | Missing

  function Get<V>(own: map<string, V>, key: string): (r: Lookup<V>)
    ensures r.Own? <==> key in own
    ensures r.Inherited? <==> key !in own && key in PrototypeKeys
  {
    if key in own then Own(own[key])
    else if key in PrototypeKeys then Inherited(key)
    else Missing
  }

  /** The two inherited keys that are already lower-case, so a lower-cased extension can reach them. */
  lemma LowerCasePrototypeKeys()
    ensures "constructor" in PrototypeKeys && "__proto__" in PrototypeKeys
    ensures Text.ToLower("constructor") == "constructor"
    ensures Text.ToLower("__proto__") == "__proto__"
  {
    LowerCaseKey("constructor");
    LowerCaseKey("__proto__");
  }

  lemma LowerCaseKey(key: string)
    requires key == "constructor" || key == "__proto__"
    ensures Text.ToLower(key) == key
  {
    forall i | 0 <= i < |key|
      ensures !('A' <= key[i] <= 'Z')
    {
    }
    Text.ToLowerNoCapitals(key);
  }
}
