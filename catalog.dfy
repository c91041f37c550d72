/**
 * Plan catalog of the subscription context: the plan tiers, the eight metered
 * resources, the per-plan quotas (PLAN_LIMITS), the map from resource to storage
 * column (dbColumnMap) and the checkout prices (planPrices).
 */
module Catalog {

  datatype PlanType = Solo | Discovery | Escala

  /** The eight metered content tools, named as the usage record names them. */
  datatype Resource =
    | MercadoPublicoAlvo
    | FunilDeBusca
    | PalavrasChave
    | TextoSeoLp
    | TextoSeoProduto
    | TextoSeoBlog
    | PautasBlog
    | MetaDados

  /** A quota: a finite count, or JavaScript's `Infinity`. */
  datatype Limit = Finite(n: nat) | Unlimited {

    /** `used < limit`, with `Infinity` above every count. */
    predicate Admits(used: nat)
    {
      Unlimited? || used < n
    }

    /** Pointwise order of quotas, `Infinity` on top. */
    predicate AtMost(other: Limit)
    {
      other.Unlimited? || (Finite? && n <= other.n)
    }
  }

  /** One value per resource: the shape of both `Usage` and `PlanLimits`. */
  datatype PerResource<T> = PerResource(
    mercadoPublicoAlvo: T,
    funilDeBusca: T,
    palavrasChave: T,
    textoSeoLp: T,
    textoSeoProduto: T,
    textoSeoBlog: T,
    pautasBlog: T,
    metaDados: T)
  {
    /** `record[resource]` */
    function Get(r: Resource): T
    {
      match r
      case MercadoPublicoAlvo => mercadoPublicoAlvo
      case FunilDeBusca => funilDeBusca
      case PalavrasChave => palavrasChave
      case TextoSeoLp => textoSeoLp
      case TextoSeoProduto => textoSeoProduto
      case TextoSeoBlog => textoSeoBlog
      case PautasBlog => pautasBlog
      case MetaDados => metaDados
    }

    /** `{ ...record, [resource]: v }` */
    function With(r: Resource, v: T): (rec: PerResource<T>)
      ensures rec.Get(r) == v
      ensures forall q :: q != r ==> rec.Get(q) == Get(q)
    {
      match r
      case MercadoPublicoAlvo => this.(mercadoPublicoAlvo := v)
      case FunilDeBusca => this.(funilDeBusca := v)
      case PalavrasChave => this.(palavrasChave := v)
      case TextoSeoLp => this.(textoSeoLp := v)
      case TextoSeoProduto => this.(textoSeoProduto := v)
      case TextoSeoBlog => this.(textoSeoBlog := v)
      case PautasBlog => this.(pautasBlog := v)
      case MetaDados => this.(metaDados := v)
    }
  }

  function Uniform<T>(v: T): (rec: PerResource<T>)
    ensures forall r :: rec.Get(r) == v
  {
    PerResource(v, v, v, v, v, v, v, v)
  }

  /** The all-zero usage record a fresh or signed-out session starts from. */
  function ZeroUsage(): (u: PerResource<nat>)
    ensures forall r :: u.Get(r) == 0
  {
    Uniform(0)
  }

  /** PLAN_LIMITS: every plan gives every resource a quota; only escala is unlimited. */
  function PlanLimits(plan: PlanType): (limits: PerResource<Limit>)
    ensures plan == Escala ==> forall r :: limits.Get(r) == Unlimited
    ensures plan != Escala ==> forall r :: limits.Get(r).Finite? && limits.Get(r).n > 0
  {
    match plan
    case Solo => PerResource(Finite(5), Finite(5), Finite(20), Finite(15), Finite(15), Finite(15), Finite(5), Finite(50))
    case Discovery => PerResource(Finite(15), Finite(15), Finite(60), Finite(60), Finite(60), Finite(60), Finite(15), Finite(100))
    case Escala => Uniform(Unlimited)
  }

  /** A higher tier never has a lower quota than a lower tier, for any resource. */
  lemma TiersAreOrdered(r: Resource)
    ensures PlanLimits(Solo).Get(r).AtMost(PlanLimits(Discovery).Get(r))
    ensures PlanLimits(Discovery).Get(r).AtMost(PlanLimits(Escala).Get(r))
    ensures PlanLimits(Solo).Get(r).n < PlanLimits(Discovery).Get(r).n
  {
  }

  /** dbColumnMap: the storage column that holds each resource's counter. */
  function UsageColumn(r: Resource): (column: string)
    ensures |column| > 0
  {
    match r
    case MercadoPublicoAlvo => "mercado_publico_alvo"
    case FunilDeBusca => "funil_de_busca"
    case PalavrasChave => "palavras_chave"
    case TextoSeoLp => "texto_seo_lp"
    case TextoSeoProduto => "texto_seo_produto"
    case TextoSeoBlog => "texto_seo_blog"
    case PautasBlog => "pautas_blog"
    case MetaDados => "meta_dados"
  }

  /** Distinct resources are stored in distinct columns, so an increment touches one counter. */
  lemma UsageColumnInjective(r: Resource, q: Resource)
    ensures UsageColumn(r) == UsageColumn(q) ==> r == q
  {
  }

  /** planPrices: the amount the checkout request charges for a plan. */
  function PlanPrice(plan: PlanType): (amount: nat)
    ensures amount > 0
  {
    match plan
    case Solo => 97
    case Discovery => 297
    case Escala => 997
  }

  /** Dearer tiers cost more: solo < discovery < escala. */
  lemma PricesIncrease()
    ensures PlanPrice(Solo) < PlanPrice(Discovery) < PlanPrice(Escala)
  {
  }

  /** The string form of a plan, as `PlanType` is spelled in TypeScript. */
  function PlanKey(plan: PlanType): (key: string)
    ensures |key| > 0
  {
    match plan
    case Solo => "solo"
    case Discovery => "discovery"
    case Escala => "escala"
  }
}
