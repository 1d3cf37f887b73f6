/**
 * The record update the pages write as `{...record, [name]: value}`: a form record is a
 * map from input name to value.
 */
module Records {

  /** Field `name` now holds `value`; every other field keeps its value. */
  function WithField<V>(form: map<string, V>, name: string, value: V): (r: map<string, V>)
    ensures r.Keys == form.Keys + {name}
    ensures r[name] == value
    ensures forall k :: k in form && k != name ==> r[k] == form[k]
  {
    form[name := value]
  }
}
