/**
 * The argument checks every chart constructor starts with (chart.js,
 * index.js and app/scripts/bubblechart.js carry the same two tests).
 */
module Factory {
  import opened Js
  import Merge

  /**
   * `selector` and `options` are the two constructor arguments, `None` for
   * `undefined`. A missing selector throws first; then the options must be
   * given and have a truthy `path`. Reading `path` of `null` throws a
   * TypeError; any value that is not an object has no `path` at all. On
   * success the caller's own options are returned, ready to be merged over
   * the defaults.
   */
  function CheckArguments(selector: Option<OptVal>, options: Option<OptVal>): (r: Result<Options>)
    ensures r == Err(NoSelector) <==> selector.None?
    ensures r == Err(TypeError) <==> selector.Some? && options == Some(ONull)
    ensures r.Ok? <==> selector.Some? && options.Some? && options.value.OObj?
                       && OptTruthy(Get(options.value.fields, "path"))
    ensures r.Ok? ==> r.value == options.value.fields
  {
    if selector.None? then Err(NoSelector)
    else match options
      case None => Err(NoPath)
      case Some(ONull) => Err(TypeError)
      case Some(OObj(fields)) => if OptTruthy(Get(fields, "path")) then Ok(fields) else Err(NoPath)
      case Some(_) => Err(NoPath)
  }

  /**
   * The synchronous part of a chart constructor: the argument checks, then
   * `_merge(optionsDefault, _options)`. Every option the caller sets wins,
   * whole, and every default the caller leaves out survives.
   */
  function Configure(defaults: Options, selector: Option<OptVal>, options: Option<OptVal>): (r: Result<Options>)
    ensures r.Err? <==> CheckArguments(selector, options).Err?
    ensures r.Err? ==> r.error == CheckArguments(selector, options).error
    ensures r.Ok? ==> var user := options.value.fields;
      && r.value.Keys == defaults.Keys + user.Keys
      && (forall k :: k in user ==> r.value[k] == user[k])
      && (forall k :: k in defaults && k !in user ==> r.value[k] == defaults[k])
  {
    match CheckArguments(selector, options)
    case Err(e) => Err(e)
    case Ok(user) =>
      Merge.MergeAllPair(defaults, user);
      Ok(Merge.MergeAll([defaults, user]))
  }
}
