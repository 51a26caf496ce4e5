/**
 * Untrusted values as `JSON.parse` (or a cast from `unknown`) hands them to the
 * snapshot normalisers, with the JavaScript checks those normalisers use.
 */
module Json {
  import opened Commun
  import opened Texte

  /** A JavaScript number: finite, NaN or an infinity. */
  datatype Num = Fini(valeur: real) | NaN | Infini(positif: bool)

  datatype JsValue =
    | JUndefined
    | JNull
    | JBool(b: bool)
    | JNum(n: Num)
    | JStr(s: string)
    | JArr(elements: seq<JsValue>)
    | JObj(champs: map<string, JsValue>)

  /** `typeof v === 'object' && v !== null` (arrays included). */
  predicate EstObjet(v: JsValue)
  {
    v.JObj? || v.JArr?
  }

  /** `Object.entries(v)` as a map: named fields of an object, index keys of an array. */
  function Entrees(v: JsValue): (m: map<string, JsValue>)
    ensures v.JObj? ==> m == v.champs
    ensures !EstObjet(v) ==> m == map[]
  {
    match v
    case JObj(c) => c
    case JArr(e) =>
      NatToStringInjectif();
      map i: nat | i < |e| :: NatToString(i) := e[i]
    case _ => map[]
  }

  /** `v[k]` on an object or array; a missing field reads as undefined. */
  function Champ(v: JsValue, k: string): JsValue
  {
    var e := Entrees(v);
    if k in e then e[k] else JUndefined
  }

  predicate EstChaine(v: JsValue)
  {
    v.JStr?
  }

  /** `typeof v === 'number' && !Number.isNaN(v)`. */
  predicate EstNombreNonNaN(v: JsValue)
  {
    v.JNum? && !v.n.NaN?
  }

  /** `typeof v === 'number' && Number.isFinite(v)`. */
  predicate EstNombreFini(v: JsValue)
  {
    v.JNum? && v.n.Fini?
  }

  function ChaineOu(v: JsValue, defaut: string): string
  {
    if v.JStr? then v.s else defaut
  }

  function OptionChaine(v: JsValue): Option<string>
  {
    if v.JStr? then Some(v.s) else None
  }
}
