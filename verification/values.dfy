/**
 * The value type of the newer interpreter: the variants `eval_obj` matches
 * on (src/eval.rs). Code and data share it: a `List` is a form to evaluate,
 * a `ListData` is the value `[list ...]` builds.
 */
module Values {

  datatype Object =
    | Void
    | Number(n: real)
    | Bool(b: bool)
    | Symbol(name: string)
    | Lambda(params: seq<string>, body: seq<Object>)
    | List(items: seq<Object>)
    | ListData(elems: seq<Object>)
    | String(text: string)
}
