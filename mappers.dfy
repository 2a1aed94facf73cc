/**
 * The Room entity <-> domain mappers. An entity always has an id; a domain
 * record may not, and then `toEntity` gives it a random UUID, which the model
 * takes as the parameter `freshId`. The entity's epoch-millisecond date is
 * kept as the same `Date` record (the two are in one-to-one correspondence).
 */
module Mappers {
  import opened Common

  datatype TransactionEntity = TransactionEntity(
    id: string,
    userId: Option<string>,
    date: Date,
    amount: real,
    isIncome: bool,
    description: Option<string>,
    provider: Option<string>,
    contactName: Option<string>,
    accountInfo: Option<string>,
    categoryId: Option<string>)

  datatype CategoryEntity = CategoryEntity(id: string, userId: Option<string>, name: string, color: int)

  /**
   * `TransactionEntity.toDomain`: the entity's id becomes present, and
   * writing the result back, whatever fresh id is on offer, gives the entity.
   */
  function TransactionToDomain(e: TransactionEntity): (t: Transaction)
    ensures t.id == Some(e.id)
    ensures forall freshId :: TransactionToEntity(t, freshId) == e
  {
    Transaction(Some(e.id), e.userId, e.date, e.amount, e.isIncome, e.description,
                e.provider, e.contactName, e.accountInfo, e.categoryId)
  }

  /** `Transaction.toEntity`: a present id is kept, a missing one becomes `freshId`. */
  function TransactionToEntity(t: Transaction, freshId: string): (e: TransactionEntity)
    ensures t.id.Some? ==> e.id == t.id.value
    ensures t.id.None? ==> e.id == freshId
  {
    TransactionEntity(OrElse(t.id, freshId), t.userId, t.date, t.amount, t.isIncome, t.description,
                      t.provider, t.contactName, t.accountInfo, t.categoryId)
  }

  /** `CategoryEntity.toDomain`: the id becomes present, and writing the result back gives the entity. */
  function CategoryToDomain(e: CategoryEntity): (c: Category)
    ensures c.id == Some(e.id)
    ensures forall freshId :: CategoryToEntity(c, freshId) == e
  {
    Category(Some(e.id), e.userId, e.name, e.color)
  }

  /** `Category.toEntity`: a present id is kept, a missing one becomes `freshId`. */
  function CategoryToEntity(c: Category, freshId: string): (e: CategoryEntity)
    ensures c.id.Some? ==> e.id == c.id.value
    ensures c.id.None? ==> e.id == freshId
  {
    CategoryEntity(OrElse(c.id, freshId), c.userId, c.name, c.color)
  }

  /** Reading an entity and writing it back gives the same entity. */
  lemma TransactionEntityRoundTrip(e: TransactionEntity, freshId: string)
    ensures TransactionToEntity(TransactionToDomain(e), freshId) == e
  {
  }

  /**
   * Writing a transaction and reading it back gives it back, except that a
   * missing id becomes the fresh one; every other field is copied both ways.
   */
  lemma TransactionDomainRoundTrip(t: Transaction, freshId: string)
    ensures TransactionToDomain(TransactionToEntity(t, freshId))
         == if t.id.Some? then t else t.(id := Some(freshId))
  {
  }

  lemma CategoryEntityRoundTrip(e: CategoryEntity, freshId: string)
    ensures CategoryToEntity(CategoryToDomain(e), freshId) == e
  {
  }

  lemma CategoryDomainRoundTrip(c: Category, freshId: string)
    ensures CategoryToDomain(CategoryToEntity(c, freshId))
         == if c.id.Some? then c else c.(id := Some(freshId))
  {
  }
}
