/** The roles of the schema, and those that may change any order's status. */
module Roles {
  datatype Role = FARMER | LEAD_FARMER | BUYER | TRANSPORT_PROVIDER | AGGREGATION_MANAGER
                | INPUT_PROVIDER | EXTENSION_OFFICER | ADMIN | STAFF

  predicate SystemRole(role: Role) {
    role.AGGREGATION_MANAGER? || role.ADMIN? || role.STAFF?
  }
}
