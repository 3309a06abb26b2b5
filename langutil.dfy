/**
 * JavaScript objects as the overlay uses them (string keys to values that
 * may be `undefined`), and `langutil.extend`, the shallow in-place merge.
 */
module LangUtil {
  import opened MapMerge

  /** A property value: a string, or `undefined`. */
  datatype JsValue = Undefined | Str(s: string)

  /** A plain JavaScript object whose own enumerable properties are `props`. */
  class JsObject {
    var props: map<string, JsValue>

    constructor (props: map<string, JsValue>)
      ensures this.props == props
    {
      this.props := props;
    }
  }

  /** `obj[key]`: the property's value, `undefined` when the key is missing. */
  function Get(props: map<string, JsValue>, key: string): JsValue {
    if key in props then props[key] else Undefined
  }

  /**
   * `extend(a, b)`: copy every property of `b` onto `a`, overwriting, and
   * return `a` itself. `b` undefined (null here) leaves `a` untouched; `a`
   * undefined throws as soon as `b` has a property to copy.
   */
  method Extend(a: JsObject?, b: JsObject?) returns (r: JsObject?, threw: bool)
    modifies a
    ensures threw <==> a == null && b != null && old(b.props) != map[]
    ensures !threw ==> r == a
    ensures a != null && b == null ==> a.props == old(a.props)
    ensures a != null && b != null ==> a.props == Overwrite(old(a.props), old(b.props))
  {
    if b == null {
      return a, false;
    }
    if a == null {
      // `a[prop] = b[prop]` on undefined is a TypeError
      return null, b.props != map[];
    }
    ghost var added := b.props;
    var keys := b.props.Keys;
    while keys != {}
      invariant keys <= added.Keys
      invariant a.props.Keys == old(a.props).Keys + (added.Keys - keys)
      invariant forall k :: k in added && k !in keys ==> a.props[k] == added[k]
      invariant forall k :: k in old(a.props) && (k !in added || k in keys) ==> a.props[k] == old(a.props)[k]
      invariant b.props == if a == b then a.props else added
      decreases keys
    {
      var prop :| prop in keys;
      a.props := a.props[prop := b.props[prop]];
      keys := keys - {prop};
    }
    assert a.props == Overwrite(old(a.props), added);
    return a, false;
  }
}
