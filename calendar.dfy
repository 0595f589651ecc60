/** A calendar date (`LocalDate` in the services, an ISO date string in the
    web front end), carried and compared but never computed with beyond
    whole-year differences. */
module Calendar {
  datatype Date = Date(year: int, month: int, day: int)

  /** Calendar order: by year, then month, then day. */
  predicate Before(a: Date, b: Date) {
    a.year < b.year || (a.year == b.year && (a.month < b.month || (a.month == b.month && a.day < b.day)))
  }

  /** The same month and day `n` years later. */
  function AddYears(d: Date, n: int): Date {
    d.(year := d.year + n)
  }
}
