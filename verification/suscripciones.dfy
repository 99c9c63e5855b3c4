/**
 * The subscription tiers and payment methods shared by the three drafts of
 * the streaming platform (src/tp05/ej05bak.rs, src/tp05/ej05.rs and
 * src/tp04/ej03.rs declare the same two enums and the same ladder).
 */
module Suscripciones {

  datatype MetodoPago =
    | Efectivo
    | MercadoPago(aliasMp: string)
    | TarjetaCredito(numTarjeta: string)
    | Transferencia(cbu: string)
    | Cripto(direccion: string, moneda: string)

  datatype TipoSubscripcion = Basic | Classic | Super

  /** Position of a tier on the ladder: Basic 0, Classic 1, Super 2. */
  function Nivel(t: TipoSubscripcion): nat {
    match t
    case Basic => 0
    case Classic => 1
    case Super => 2
  }

  /** `upgrade`: one step up the ladder, saturating at Super. */
  function Upgrade(t: TipoSubscripcion): (r: TipoSubscripcion)
    ensures Nivel(r) == if Nivel(t) == 2 then 2 else Nivel(t) + 1
  {
    match t
    case Basic => Classic
    case Classic => Super
    case Super => Super
  }

  /** `downgrade`: one step down the ladder, saturating at Basic. */
  function Downgrade(t: TipoSubscripcion): (r: TipoSubscripcion)
    ensures Nivel(r) == if Nivel(t) == 0 then 0 else Nivel(t) - 1
  {
    match t
    case Basic => Basic
    case Classic => Basic
    case Super => Classic
  }

  /** Tiers are told apart by their level. */
  lemma NivelInyectivo(a: TipoSubscripcion, b: TipoSubscripcion)
    requires Nivel(a) == Nivel(b)
    ensures a == b
  {
  }

  /** Downgrade undoes Upgrade below the top, and Upgrade undoes Downgrade above the bottom. */
  lemma UpgradeDowngradeInversos(t: TipoSubscripcion)
    ensures t != Super ==> Downgrade(Upgrade(t)) == t
    ensures t != Basic ==> Upgrade(Downgrade(t)) == t
  {
    if t != Super {
      NivelInyectivo(Downgrade(Upgrade(t)), t);
    }
    if t != Basic {
      NivelInyectivo(Upgrade(Downgrade(t)), t);
    }
  }

  /** Super is the only tier Upgrade fixes, and Basic the only one Downgrade fixes. */
  lemma PuntosFijos(t: TipoSubscripcion)
    ensures Upgrade(t) == t <==> t == Super
    ensures Downgrade(t) == t <==> t == Basic
  {
  }

  /** Two upgrades from any tier reach Super; two downgrades reach Basic. */
  lemma DosPasosSatura(t: TipoSubscripcion)
    ensures Upgrade(Upgrade(t)) == Super
    ensures Downgrade(Downgrade(t)) == Basic
  {
  }
}
