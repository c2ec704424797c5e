/** The display name of a light type, as the light component's editor panel shows it. */
module LightComponent {

  /**
    A light type: the three enumerators, or `Unnamed` for a value of the underlying
    enum integer that is none of them. `Unnamed` stands only for values outside the
    three enumerators; their numbers are fixed by `graphics::LightType`, which is not
    part of this model.
  */
  datatype LightType = DirectionalLight | SpotLight | PointLight | Unnamed(raw: int)

  function LightTypeToString(t: LightType): (name: string)
    ensures name == "ERROR" <==> t.Unnamed?
    ensures t == DirectionalLight ==> name == "Directional Light"
    ensures t == SpotLight ==> name == "Spot Light"
    ensures t == PointLight ==> name == "Point Light"
  {
    match t
    case DirectionalLight => "Directional Light"
    case SpotLight => "Spot Light"
    case PointLight => "Point Light"
    case Unnamed(_) => "ERROR"
  }

  /** Distinct enumerators get distinct names, so the name identifies the type. */
  lemma LightTypeNamesDistinct(a: LightType, b: LightType)
    requires !a.Unnamed? && !b.Unnamed?
    ensures LightTypeToString(a) == LightTypeToString(b) <==> a == b
  {
  }
}
