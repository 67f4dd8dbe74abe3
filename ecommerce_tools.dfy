/** The constant tool tables of the e-commerce tool catalogue (`TOOL_REGISTRY`,
    `TOOL_CATEGORIES`) and the stub tool functions whose result echoes the length
    of an input list. */
module EcommerceTools {
  import opened Wrappers
  import opened Lists

  /** One entry of a parameter model's JSON schema `properties`; only the
      `description` keyword is modelled, because it is the only one the tool
      manager reads. */
  datatype Property = Property(name: string, description: Option<string>)

  /** What `model_json_schema()` returns for a tool's parameter model: its
      `title` (the class name), its `properties` in declaration order, and its
      `required` list, which the schema omits when every field has a default. */
  datatype ModelSchema = ModelSchema(
    title: string,
    properties: Option<seq<Property>>,
    required: Option<seq<string>>)

  /** A registry value `(function, parameter model)`: the function is represented
      by its docstring (`func.__doc__`), the model by its JSON schema. */
  datatype ToolEntry = ToolEntry(doc: Option<string>, model: ModelSchema)

  /** The "Inventory Management" section of the registry. */
  const InventoryManagementSection: seq<(string, ToolEntry)> := [
    ("check_stock", ToolEntry(Some("Check current stock level for a product"),
      ModelSchema("CheckStockInput", Some([Property("product_id", Some("Unique identifier for the product"))]), Some(["product_id"])))),
    ("update_inventory", ToolEntry(Some("Update inventory quantity for a product (add or subtract)"),
      ModelSchema("UpdateInventoryInput", Some([Property("product_id", Some("Unique identifier for the product")), Property("quantity", Some("Quantity to add or subtract")), Property("operation", Some("Operation type: 'add' or 'subtract'"))]), Some(["product_id", "quantity"])))),
    ("reorder_product", ToolEntry(Some("Create a reorder request for a product from supplier"),
      ModelSchema("ReorderProductInput", Some([Property("product_id", Some("Unique identifier for the product")), Property("quantity", Some("Quantity to reorder")), Property("supplier_id", Some("Supplier identifier"))]), Some(["product_id", "quantity", "supplier_id"])))),
    ("track_shipment", ToolEntry(Some("Track the status and location of a shipment"),
      ModelSchema("TrackShipmentInput", Some([Property("shipment_id", Some("Shipment tracking identifier"))]), Some(["shipment_id"])))),
    ("set_low_stock_alert", ToolEntry(Some("Set automatic alert when product stock falls below threshold"),
      ModelSchema("SetLowStockAlertInput", Some([Property("product_id", Some("Unique identifier for the product")), Property("threshold", Some("Minimum quantity threshold for alert"))]), Some(["product_id", "threshold"])))),
    ("get_inventory_report", ToolEntry(Some("Generate inventory report for all products or specific category"),
      ModelSchema("GetInventoryReportInput", Some([Property("category", Some("Product category to filter by")), Property("format", Some("Report format: json, csv, or pdf"))]), None))),
    ("transfer_stock", ToolEntry(Some("Transfer stock between warehouses"),
      ModelSchema("TransferStockInput", Some([Property("product_id", Some("Unique identifier for the product")), Property("from_warehouse", Some("Source warehouse ID")), Property("to_warehouse", Some("Destination warehouse ID")), Property("quantity", Some("Quantity to transfer"))]), Some(["product_id", "from_warehouse", "to_warehouse", "quantity"])))),
    ("audit_inventory", ToolEntry(Some("Perform inventory audit for a warehouse"),
      ModelSchema("AuditInventoryInput", Some([Property("warehouse_id", Some("Warehouse identifier to audit"))]), Some(["warehouse_id"])))),
    ("reserve_inventory", ToolEntry(Some("Reserve inventory for a pending order"),
      ModelSchema("ReserveInventoryInput", Some([Property("product_id", Some("Unique identifier for the product")), Property("quantity", Some("Quantity to reserve")), Property("order_id", Some("Order ID for reservation"))]), Some(["product_id", "quantity", "order_id"])))),
    ("get_product_location", ToolEntry(Some("Get warehouse location and bin number for a product"),
      ModelSchema("GetProductLocationInput", Some([Property("product_id", Some("Unique identifier for the product"))]), Some(["product_id"])))),
    ("batch_update_inventory", ToolEntry(Some("Update inventory for multiple products in one batch"),
      ModelSchema("BatchUpdateInventoryInput", Some([Property("updates", Some("List of inventory updates"))]), Some(["updates"])))),
    ("predict_stockout", ToolEntry(Some("Predict if product will stock out in given days based on sales velocity"),
      ModelSchema("PredictStockoutInput", Some([Property("product_id", Some("Unique identifier for the product")), Property("days", Some("Number of days to predict"))]), Some(["product_id"])))),
    ("get_supplier_inventory", ToolEntry(Some("Check available inventory from a supplier"),
      ModelSchema("GetSupplierInventoryInput", Some([Property("supplier_id", Some("Supplier identifier"))]), Some(["supplier_id"])))),
    ("set_reorder_point", ToolEntry(Some("Set automatic reorder point for a product"),
      ModelSchema("SetReorderPointInput", Some([Property("product_id", Some("Unique identifier for the product")), Property("reorder_quantity", Some("Quantity to order when reorder point is reached")), Property("reorder_level", Some("Stock level that triggers reorder"))]), Some(["product_id", "reorder_quantity", "reorder_level"])))),
    ("get_dead_stock_report", ToolEntry(Some("Get report of products with no sales in specified days"),
      ModelSchema("GetDeadStockReportInput", Some([Property("days_threshold", Some("Days without sales to consider dead stock"))]), None)))
  ]

  /** The "Customer Operations" section of the registry. */
  const CustomerOperationsSection: seq<(string, ToolEntry)> := [
    ("create_customer", ToolEntry(Some("Create a new customer account"),
      ModelSchema("CreateCustomerInput", Some([Property("name", Some("Customer full name")), Property("email", Some("Customer email address")), Property("phone", Some("Customer phone number"))]), Some(["name", "email"])))),
    ("update_customer_profile", ToolEntry(Some("Update specific field in customer profile"),
      ModelSchema("UpdateCustomerProfileInput", Some([Property("customer_id", Some("Customer identifier")), Property("field", Some("Field name to update")), Property("value", Some("New value for the field"))]), Some(["customer_id", "field", "value"])))),
    ("get_customer_details", ToolEntry(Some("Retrieve complete customer profile and history"),
      ModelSchema("GetCustomerDetailsInput", Some([Property("customer_id", Some("Customer identifier"))]), Some(["customer_id"])))),
    ("send_customer_notification", ToolEntry(Some("Send notification to customer via email, SMS, or push"),
      ModelSchema("SendCustomerNotificationInput", Some([Property("customer_id", Some("Customer identifier")), Property("message", Some("Notification message")), Property("channel", Some("Communication channel: email, sms, or push"))]), Some(["customer_id", "message"])))),
    ("process_refund", ToolEntry(Some("Process refund for an order"),
      ModelSchema("ProcessRefundInput", Some([Property("order_id", Some("Order identifier")), Property("amount", Some("Refund amount")), Property("reason", Some("Reason for refund"))]), Some(["order_id", "amount", "reason"])))),
    ("add_customer_note", ToolEntry(Some("Add internal note to customer profile"),
      ModelSchema("AddCustomerNoteInput", Some([Property("customer_id", Some("Customer identifier")), Property("note", Some("Note content")), Property("category", Some("Note category"))]), Some(["customer_id", "note"])))),
    ("get_customer_order_history", ToolEntry(Some("Retrieve customer's order history"),
      ModelSchema("GetCustomerOrderHistoryInput", Some([Property("customer_id", Some("Customer identifier")), Property("limit", Some("Maximum number of orders to return"))]), Some(["customer_id"])))),
    ("apply_customer_discount", ToolEntry(Some("Apply discount code to customer account"),
      ModelSchema("ApplyCustomerDiscountInput", Some([Property("customer_id", Some("Customer identifier")), Property("discount_code", Some("Discount code to apply"))]), Some(["customer_id", "discount_code"])))),
    ("update_customer_tier", ToolEntry(Some("Update customer loyalty tier (bronze, silver, gold, platinum)"),
      ModelSchema("UpdateCustomerTierInput", Some([Property("customer_id", Some("Customer identifier")), Property("new_tier", Some("New loyalty tier: bronze, silver, gold, or platinum"))]), Some(["customer_id", "new_tier"])))),
    ("merge_customer_accounts", ToolEntry(Some("Merge duplicate customer accounts"),
      ModelSchema("MergeCustomerAccountsInput", Some([Property("primary_id", Some("Primary customer account ID to keep")), Property("secondary_id", Some("Secondary customer account ID to merge"))]), Some(["primary_id", "secondary_id"])))),
    ("get_customer_lifetime_value", ToolEntry(Some("Calculate customer lifetime value and metrics"),
      ModelSchema("GetCustomerLifetimeValueInput", Some([Property("customer_id", Some("Customer identifier"))]), Some(["customer_id"])))),
    ("block_customer", ToolEntry(Some("Block customer account for fraud or policy violation"),
      ModelSchema("BlockCustomerInput", Some([Property("customer_id", Some("Customer identifier")), Property("reason", Some("Reason for blocking"))]), Some(["customer_id", "reason"])))),
    ("create_customer_support_ticket", ToolEntry(Some("Create support ticket for customer issue"),
      ModelSchema("CreateCustomerSupportTicketInput", Some([Property("customer_id", Some("Customer identifier")), Property("issue", Some("Issue description")), Property("priority", Some("Ticket priority: low, medium, or high"))]), Some(["customer_id", "issue"])))),
    ("get_customer_preferences", ToolEntry(Some("Get customer communication and product preferences"),
      ModelSchema("GetCustomerPreferencesInput", Some([Property("customer_id", Some("Customer identifier"))]), Some(["customer_id"])))),
    ("award_loyalty_points", ToolEntry(Some("Award loyalty points to customer"),
      ModelSchema("AwardLoyaltyPointsInput", Some([Property("customer_id", Some("Customer identifier")), Property("points", Some("Points to award")), Property("reason", Some("Reason for awarding points"))]), Some(["customer_id", "points", "reason"]))))
  ]

  /** The "Order Processing" section of the registry. */
  const OrderProcessingSection: seq<(string, ToolEntry)> := [
    ("create_order", ToolEntry(Some("Create a new order for a customer"),
      ModelSchema("CreateOrderInput", Some([Property("customer_id", Some("Customer identifier")), Property("items", Some("List of items in order")), Property("shipping_address", Some("Shipping address"))]), Some(["customer_id", "items", "shipping_address"])))),
    ("cancel_order", ToolEntry(Some("Cancel an existing order"),
      ModelSchema("CancelOrderInput", Some([Property("order_id", Some("Order identifier")), Property("reason", Some("Cancellation reason"))]), Some(["order_id", "reason"])))),
    ("get_order_status", ToolEntry(Some("Get current status of an order"),
      ModelSchema("GetOrderStatusInput", Some([Property("order_id", Some("Order identifier"))]), Some(["order_id"])))),
    ("update_order_status", ToolEntry(Some("Update order status (pending, processing, shipped, delivered)"),
      ModelSchema("UpdateOrderStatusInput", Some([Property("order_id", Some("Order identifier")), Property("new_status", Some("New order status"))]), Some(["order_id", "new_status"])))),
    ("calculate_shipping_cost", ToolEntry(Some("Calculate shipping cost for an order"),
      ModelSchema("CalculateShippingCostInput", Some([Property("order_id", Some("Order identifier")), Property("shipping_method", Some("Shipping method: standard, express, or overnight")), Property("destination", Some("Destination address or zip code"))]), Some(["order_id", "shipping_method", "destination"])))),
    ("apply_discount_code", ToolEntry(Some("Apply discount code to an order"),
      ModelSchema("ApplyDiscountCodeInput", Some([Property("order_id", Some("Order identifier")), Property("discount_code", Some("Discount code to apply"))]), Some(["order_id", "discount_code"])))),
    ("split_order", ToolEntry(Some("Split order into multiple shipments"),
      ModelSchema("SplitOrderInput", Some([Property("order_id", Some("Order identifier")), Property("item_groups", Some("Groups of items for separate shipments"))]), Some(["order_id", "item_groups"])))),
    ("process_payment", ToolEntry(Some("Process payment for an order"),
      ModelSchema("ProcessPaymentInput", Some([Property("order_id", Some("Order identifier")), Property("payment_method", Some("Payment method: card, paypal, etc.")), Property("amount", Some("Payment amount"))]), Some(["order_id", "payment_method", "amount"])))),
    ("validate_order", ToolEntry(Some("Validate order details (inventory, address, payment)"),
      ModelSchema("ValidateOrderInput", Some([Property("order_id", Some("Order identifier"))]), Some(["order_id"])))),
    ("get_order_invoice", ToolEntry(Some("Generate and retrieve order invoice"),
      ModelSchema("GetOrderInvoiceInput", Some([Property("order_id", Some("Order identifier")), Property("format", Some("Invoice format: pdf or html"))]), Some(["order_id"])))),
    ("add_items_to_order", ToolEntry(Some("Add additional items to existing order"),
      ModelSchema("AddItemsToOrderInput", Some([Property("order_id", Some("Order identifier")), Property("items", Some("Items to add"))]), Some(["order_id", "items"])))),
    ("remove_items_from_order", ToolEntry(Some("Remove items from existing order"),
      ModelSchema("RemoveItemsFromOrderInput", Some([Property("order_id", Some("Order identifier")), Property("item_ids", Some("Item IDs to remove"))]), Some(["order_id", "item_ids"])))),
    ("update_shipping_address", ToolEntry(Some("Update shipping address for an order"),
      ModelSchema("UpdateShippingAddressInput", Some([Property("order_id", Some("Order identifier")), Property("new_address", Some("New shipping address"))]), Some(["order_id", "new_address"])))),
    ("reschedule_delivery", ToolEntry(Some("Reschedule delivery date for an order"),
      ModelSchema("RescheduleDeliveryInput", Some([Property("order_id", Some("Order identifier")), Property("new_date", Some("New delivery date (YYYY-MM-DD)"))]), Some(["order_id", "new_date"])))),
    ("mark_order_as_gift", ToolEntry(Some("Mark order as gift with optional message"),
      ModelSchema("MarkOrderAsGiftInput", Some([Property("order_id", Some("Order identifier")), Property("gift_message", Some("Optional gift message"))]), Some(["order_id"]))))
  ]

  /** The "Analytics & Reporting" section of the registry. */
  const AnalyticsReportingSection: seq<(string, ToolEntry)> := [
    ("generate_sales_report", ToolEntry(Some("Generate sales report for date range"),
      ModelSchema("GenerateSalesReportInput", Some([Property("start_date", Some("Report start date (YYYY-MM-DD)")), Property("end_date", Some("Report end date (YYYY-MM-DD)")), Property("granularity", Some("Data granularity: hourly, daily, weekly, or monthly"))]), Some(["start_date", "end_date"])))),
    ("get_customer_analytics", ToolEntry(Some("Get customer analytics (acquisition, retention, churn)"),
      ModelSchema("GetCustomerAnalyticsInput", Some([Property("metric", Some("Metric to analyze: acquisition, retention, or churn")), Property("time_period", Some("Time period: 7d, 30d, 90d, etc."))]), Some(["metric"])))),
    ("forecast_inventory_demand", ToolEntry(Some("Forecast product demand for future period"),
      ModelSchema("ForecastInventoryDemandInput", Some([Property("product_id", Some("Product identifier")), Property("days", Some("Days to forecast"))]), Some(["product_id"])))),
    ("generate_revenue_dashboard", ToolEntry(Some("Generate comprehensive revenue dashboard"),
      ModelSchema("GenerateRevenueDashboardInput", Some([Property("date", Some("Dashboard date (YYYY-MM-DD)"))]), Some(["date"])))),
    ("get_product_performance", ToolEntry(Some("Get product performance metrics"),
      ModelSchema("GetProductPerformanceInput", Some([Property("product_id", Some("Product identifier")), Property("days", Some("Number of days to analyze"))]), Some(["product_id"])))),
    ("analyze_cart_abandonment", ToolEntry(Some("Analyze cart abandonment rate and reasons"),
      ModelSchema("AnalyzeCartAbandonmentInput", Some([Property("time_period", Some("Time period to analyze"))]), None))),
    ("get_top_selling_products", ToolEntry(Some("Get top selling products overall or by category"),
      ModelSchema("GetTopSellingProductsInput", Some([Property("category", Some("Product category filter")), Property("limit", Some("Number of products to return"))]), None))),
    ("calculate_profit_margin", ToolEntry(Some("Calculate profit margin for product or category"),
      ModelSchema("CalculateProfitMarginInput", Some([Property("product_id", Some("Specific product ID")), Property("category", Some("Product category"))]), None))),
    ("get_customer_segmentation_report", ToolEntry(Some("Get customer segmentation analysis (RFM, behavioral)"),
      ModelSchema("GetCustomerSegmentationReportInput", Some([]), None))),
    ("analyze_return_rate", ToolEntry(Some("Analyze product return rate and reasons"),
      ModelSchema("AnalyzeReturnRateInput", Some([Property("time_period", Some("Time period to analyze")), Property("category", Some("Product category filter"))]), None))),
    ("get_conversion_funnel", ToolEntry(Some("Get conversion funnel analytics"),
      ModelSchema("GetConversionFunnelInput", Some([Property("start_date", Some("Start date (YYYY-MM-DD)")), Property("end_date", Some("End date (YYYY-MM-DD)"))]), Some(["start_date", "end_date"])))),
    ("compare_period_performance", ToolEntry(Some("Compare performance metrics between two time periods"),
      ModelSchema("ComparePeriodPerformanceInput", Some([Property("period1", Some("First period (e.g., '2024-01' or '2024-01-01:2024-01-31')")), Property("period2", Some("Second period to compare")), Property("metric", Some("Metric to compare: sales, orders, revenue, etc."))]), Some(["period1", "period2", "metric"])))),
    ("get_channel_attribution_report", ToolEntry(Some("Get marketing channel attribution for sales"),
      ModelSchema("GetChannelAttributionReportInput", Some([Property("order_id", Some("Specific order ID to analyze"))]), None)))
  ]

  /** The "Marketing & Content" section of the registry. */
  const MarketingContentSection: seq<(string, ToolEntry)> := [
    ("create_marketing_campaign", ToolEntry(Some("Create new marketing campaign"),
      ModelSchema("CreateMarketingCampaignInput", Some([Property("name", Some("Campaign name")), Property("channel", Some("Marketing channel: email, social, paid_search, etc.")), Property("budget", Some("Campaign budget")), Property("duration_days", Some("Campaign duration in days"))]), Some(["name", "channel", "budget", "duration_days"])))),
    ("send_email_blast", ToolEntry(Some("Send bulk email to customer segment"),
      ModelSchema("SendEmailBlastInput", Some([Property("segment", Some("Customer segment to target")), Property("subject", Some("Email subject line")), Property("template_id", Some("Email template identifier"))]), Some(["segment", "subject", "template_id"])))),
    ("update_product_description", ToolEntry(Some("Update product description and details"),
      ModelSchema("UpdateProductDescriptionInput", Some([Property("product_id", Some("Product identifier")), Property("description", Some("New product description"))]), Some(["product_id", "description"])))),
    ("schedule_social_post", ToolEntry(Some("Schedule social media post"),
      ModelSchema("ScheduleSocialPostInput", Some([Property("platform", Some("Social platform: facebook, twitter, instagram, etc.")), Property("content", Some("Post content")), Property("scheduled_time", Some("Scheduled post time (ISO format)"))]), Some(["platform", "content", "scheduled_time"])))),
    ("create_discount_campaign", ToolEntry(Some("Create discount code campaign"),
      ModelSchema("CreateDiscountCampaignInput", Some([Property("code", Some("Discount code")), Property("percentage", Some("Discount percentage")), Property("valid_until", Some("Expiration date (YYYY-MM-DD)")), Property("conditions", Some("Discount conditions and rules"))]), Some(["code", "percentage", "valid_until", "conditions"])))),
    ("analyze_campaign_performance", ToolEntry(Some("Get campaign performance metrics"),
      ModelSchema("AnalyzeCampaignPerformanceInput", Some([Property("campaign_id", Some("Campaign identifier"))]), Some(["campaign_id"])))),
    ("create_product_bundle", ToolEntry(Some("Create product bundle with discount"),
      ModelSchema("CreateProductBundleInput", Some([Property("name", Some("Bundle name")), Property("product_ids", Some("List of product IDs in bundle")), Property("discount", Some("Bundle discount percentage"))]), Some(["name", "product_ids", "discount"])))),
    ("update_pricing", ToolEntry(Some("Update product pricing"),
      ModelSchema("UpdatePricingInput", Some([Property("product_id", Some("Product identifier")), Property("new_price", Some("New regular price")), Property("sale_price", Some("Optional sale price"))]), Some(["product_id", "new_price"])))),
    ("create_abandoned_cart_campaign", ToolEntry(Some("Create automated abandoned cart recovery campaign"),
      ModelSchema("CreateAbandonedCartCampaignInput", Some([Property("hours_threshold", Some("Hours after abandonment to trigger"))]), None))),
    ("generate_product_recommendations", ToolEntry(Some("Generate personalized product recommendations"),
      ModelSchema("GenerateProductRecommendationsInput", Some([Property("customer_id", Some("Customer identifier")), Property("limit", Some("Number of recommendations"))]), Some(["customer_id"])))),
    ("update_seo_metadata", ToolEntry(Some("Update product SEO metadata"),
      ModelSchema("UpdateSEOMetadataInput", Some([Property("product_id", Some("Product identifier")), Property("title", Some("SEO title")), Property("keywords", Some("SEO keywords")), Property("description", Some("SEO meta description"))]), Some(["product_id", "title", "keywords", "description"])))),
    ("create_loyalty_program_tier", ToolEntry(Some("Create or update loyalty program tier"),
      ModelSchema("CreateLoyaltyProgramTierInput", Some([Property("tier_name", Some("Tier name")), Property("min_spend", Some("Minimum spend to qualify")), Property("benefits", Some("List of tier benefits"))]), Some(["tier_name", "min_spend", "benefits"]))))
  ]

  /** The "inventory_management" list of the category table. */
  const InventoryManagementTools: seq<string> := [
    "check_stock", "update_inventory", "reorder_product",
    "track_shipment", "set_low_stock_alert", "get_inventory_report",
    "transfer_stock", "audit_inventory", "reserve_inventory",
    "get_product_location", "batch_update_inventory", "predict_stockout",
    "get_supplier_inventory", "set_reorder_point", "get_dead_stock_report"
  ]

  /** The "customer_operations" list of the category table. */
  const CustomerOperationsTools: seq<string> := [
    "create_customer", "update_customer_profile", "get_customer_details",
    "send_customer_notification", "process_refund", "add_customer_note",
    "get_customer_order_history", "apply_customer_discount", "update_customer_tier",
    "merge_customer_accounts", "get_customer_lifetime_value", "block_customer",
    "create_customer_support_ticket", "get_customer_preferences", "award_loyalty_points"
  ]

  /** The "order_processing" list of the category table. */
  const OrderProcessingTools: seq<string> := [
    "create_order", "cancel_order", "get_order_status",
    "update_order_status", "calculate_shipping_cost", "apply_discount_code",
    "split_order", "process_payment", "validate_order",
    "get_order_invoice", "add_items_to_order", "remove_items_from_order",
    "update_shipping_address", "reschedule_delivery", "mark_order_as_gift"
  ]

  /** The "analytics_reporting" list of the category table. */
  const AnalyticsReportingTools: seq<string> := [
    "generate_sales_report", "get_customer_analytics", "forecast_inventory_demand",
    "generate_revenue_dashboard", "get_product_performance", "analyze_cart_abandonment",
    "get_top_selling_products", "calculate_profit_margin", "get_customer_segmentation_report",
    "analyze_return_rate", "get_conversion_funnel", "compare_period_performance",
    "get_channel_attribution_report"
  ]

  /** The "marketing_content" list of the category table. */
  const MarketingContentTools: seq<string> := [
    "create_marketing_campaign", "send_email_blast", "update_product_description",
    "schedule_social_post", "create_discount_campaign", "analyze_campaign_performance",
    "create_product_bundle", "update_pricing", "create_abandoned_cart_campaign",
    "generate_product_recommendations", "update_seo_metadata", "create_loyalty_program_tier"
  ]

  /** `TOOL_REGISTRY`: tool name -> (function, parameter model), in insertion order. */
  const ToolRegistry: seq<(string, ToolEntry)> :=
    InventoryManagementSection + CustomerOperationsSection + OrderProcessingSection
    + AnalyticsReportingSection + MarketingContentSection

  /** `TOOL_CATEGORIES`: category name -> tool names, in insertion order. */
  const ToolCategories: seq<(string, seq<string>)> := [
    ("inventory_management", InventoryManagementTools),
    ("customer_operations", CustomerOperationsTools),
    ("order_processing", OrderProcessingTools),
    ("analytics_reporting", AnalyticsReportingTools),
    ("marketing_content", MarketingContentTools)
  ]

  /** All tool lists of a category table, one after the other. */
  function Flatten(cats: seq<(string, seq<string>)>): (r: seq<string>)
  {
    if cats == [] then [] else cats[0].1 + Flatten(cats[1..])
  }

  /** Each registry section lists exactly the tools of the matching category,
      in the same order. */
  lemma SectionKeys()
    ensures Keys(InventoryManagementSection) == InventoryManagementTools
    ensures Keys(CustomerOperationsSection) == CustomerOperationsTools
    ensures Keys(OrderProcessingSection) == OrderProcessingTools
    ensures Keys(AnalyticsReportingSection) == AnalyticsReportingTools
    ensures Keys(MarketingContentSection) == MarketingContentTools
  {
  }

  /** The category table's lists, laid end to end. */
  lemma {:induction false} FlattenCategories()
    ensures Flatten(ToolCategories) == InventoryManagementTools + CustomerOperationsTools
      + OrderProcessingTools + AnalyticsReportingTools + MarketingContentTools
  {
    var c := ToolCategories;
    assert c[4..][1..] == [];
    assert Flatten(c[4..]) == MarketingContentTools;
    assert c[3..][1..] == c[4..];
    assert Flatten(c[3..]) == AnalyticsReportingTools + MarketingContentTools;
    assert c[2..][1..] == c[3..];
    assert Flatten(c[2..]) == OrderProcessingTools + (AnalyticsReportingTools + MarketingContentTools);
    assert c[1..][1..] == c[2..];
    assert Flatten(c[1..]) == CustomerOperationsTools + (OrderProcessingTools
      + (AnalyticsReportingTools + MarketingContentTools));
  }

  /** The registry keys are the category lists laid end to end. */
  lemma RegistryKeysAreCategoryLists()
    ensures Keys(ToolRegistry) == Flatten(ToolCategories)
  {
    SectionKeys();
    FlattenCategories();
    var a, b, c, d, e := InventoryManagementSection, CustomerOperationsSection,
      OrderProcessingSection, AnalyticsReportingSection, MarketingContentSection;
    KeysConcat(a + b + c + d, e);
    KeysConcat(a + b + c, d);
    KeysConcat(a + b, c);
    KeysConcat(a, b);
  }

  /** No category list repeats a tool. */
  lemma CategoryListsNoDup()
    ensures NoDup(InventoryManagementTools)
    ensures NoDup(CustomerOperationsTools)
    ensures NoDup(OrderProcessingTools)
    ensures NoDup(AnalyticsReportingTools)
    ensures NoDup(MarketingContentTools)
  {
  }

  // No two category lists share a tool (one lemma per pair keeps each proof small).

  lemma DisjointInventoryManagementCustomerOperations()
    ensures Disjoint(InventoryManagementTools, CustomerOperationsTools)
  {
    forall k | 0 <= k < |CustomerOperationsTools| ensures CustomerOperationsTools[k] !in InventoryManagementTools {
    }
  }

  lemma DisjointInventoryManagementOrderProcessing()
    ensures Disjoint(InventoryManagementTools, OrderProcessingTools)
  {
    forall k | 0 <= k < |OrderProcessingTools| ensures OrderProcessingTools[k] !in InventoryManagementTools {
    }
  }

  lemma DisjointInventoryManagementAnalyticsReporting()
    ensures Disjoint(InventoryManagementTools, AnalyticsReportingTools)
  {
    forall k | 0 <= k < |AnalyticsReportingTools| ensures AnalyticsReportingTools[k] !in InventoryManagementTools {
    }
  }

  lemma DisjointInventoryManagementMarketingContent()
    ensures Disjoint(InventoryManagementTools, MarketingContentTools)
  {
    forall k | 0 <= k < |MarketingContentTools| ensures MarketingContentTools[k] !in InventoryManagementTools {
    }
  }

  lemma DisjointCustomerOperationsOrderProcessing()
    ensures Disjoint(CustomerOperationsTools, OrderProcessingTools)
  {
    forall k | 0 <= k < |OrderProcessingTools| ensures OrderProcessingTools[k] !in CustomerOperationsTools {
    }
  }

  lemma DisjointCustomerOperationsAnalyticsReporting()
    ensures Disjoint(CustomerOperationsTools, AnalyticsReportingTools)
  {
    forall k | 0 <= k < |AnalyticsReportingTools| ensures AnalyticsReportingTools[k] !in CustomerOperationsTools {
    }
  }

  lemma DisjointCustomerOperationsMarketingContent()
    ensures Disjoint(CustomerOperationsTools, MarketingContentTools)
  {
    forall k | 0 <= k < |MarketingContentTools| ensures MarketingContentTools[k] !in CustomerOperationsTools {
    }
  }

  lemma DisjointOrderProcessingAnalyticsReporting()
    ensures Disjoint(OrderProcessingTools, AnalyticsReportingTools)
  {
    forall k | 0 <= k < |AnalyticsReportingTools| ensures AnalyticsReportingTools[k] !in OrderProcessingTools {
    }
  }

  lemma DisjointOrderProcessingMarketingContent()
    ensures Disjoint(OrderProcessingTools, MarketingContentTools)
  {
    forall k | 0 <= k < |MarketingContentTools| ensures MarketingContentTools[k] !in OrderProcessingTools {
    }
  }

  lemma DisjointAnalyticsReportingMarketingContent()
    ensures Disjoint(AnalyticsReportingTools, MarketingContentTools)
  {
    forall k | 0 <= k < |MarketingContentTools| ensures MarketingContentTools[k] !in AnalyticsReportingTools {
    }
  }

  /** Membership in the laid-out lists is membership in one of the category lists. */
  lemma {:induction false} FlattenMembership(cats: seq<(string, seq<string>)>, t: string)
    ensures t in Flatten(cats) <==> exists i :: 0 <= i < |cats| && t in cats[i].1
  {
    if cats != [] {
      FlattenMembership(cats[1..], t);
      if t in Flatten(cats[1..]) {
        var i :| 0 <= i < |cats[1..]| && t in cats[1..][i].1;
        assert t in cats[i + 1].1;
      }
      forall i | 0 < i < |cats| && t in cats[i].1 ensures t in Flatten(cats[1..]) {
        assert t in cats[1..][i - 1].1;
      }
    }
  }

  /** `TOOL_REGISTRY` holds exactly 70 tools, each under one name. */
  lemma RegistrySize()
    ensures |ToolRegistry| == 70
    ensures NoDup(Keys(ToolRegistry))
  {
    RegistryKeysAreCategoryLists();
    FlattenCategories();
    CategoryListsNoDup();
    var a, b, c, d, e := InventoryManagementTools, CustomerOperationsTools,
      OrderProcessingTools, AnalyticsReportingTools, MarketingContentTools;
    DisjointInventoryManagementCustomerOperations();
    NoDupConcat(a, b);
    DisjointInventoryManagementOrderProcessing();
    DisjointCustomerOperationsOrderProcessing();
    DisjointConcat(a, b, c);
    NoDupConcat(a + b, c);
    DisjointInventoryManagementAnalyticsReporting();
    DisjointCustomerOperationsAnalyticsReporting();
    DisjointOrderProcessingAnalyticsReporting();
    DisjointConcat(a, b, d);
    DisjointConcat(a + b, c, d);
    NoDupConcat(a + b + c, d);
    DisjointInventoryManagementMarketingContent();
    DisjointCustomerOperationsMarketingContent();
    DisjointOrderProcessingMarketingContent();
    DisjointAnalyticsReportingMarketingContent();
    DisjointConcat(a, b, e);
    DisjointConcat(a + b, c, e);
    DisjointConcat(a + b + c, d, e);
    NoDupConcat(a + b + c + d, e);
  }

  /** The five categories, in table order, with 15, 15, 15, 13 and 12 tools. */
  lemma CategorySizes()
    ensures Keys(ToolCategories)
      == ["inventory_management", "customer_operations", "order_processing",
          "analytics_reporting", "marketing_content"]
    ensures |ToolCategories[0].1| == 15 && |ToolCategories[1].1| == 15
      && |ToolCategories[2].1| == 15 && |ToolCategories[3].1| == 13
      && |ToolCategories[4].1| == 12
  {
  }

  /** No tool is listed in two categories. */
  lemma CategoriesDisjoint()
    ensures forall i, j :: 0 <= i < j < |ToolCategories| ==>
      Disjoint(ToolCategories[i].1, ToolCategories[j].1)
  {
    DisjointInventoryManagementCustomerOperations();
    DisjointInventoryManagementOrderProcessing();
    DisjointInventoryManagementAnalyticsReporting();
    DisjointInventoryManagementMarketingContent();
    DisjointCustomerOperationsOrderProcessing();
    DisjointCustomerOperationsAnalyticsReporting();
    DisjointCustomerOperationsMarketingContent();
    DisjointOrderProcessingAnalyticsReporting();
    DisjointOrderProcessingMarketingContent();
    DisjointAnalyticsReportingMarketingContent();
  }

  /** The categories partition the registry: a name is a registry key exactly when
      some category lists it, and then exactly one does. */
  lemma CategoriesPartitionRegistry(t: string)
    ensures t in Keys(ToolRegistry) <==> exists i :: 0 <= i < |ToolCategories| && t in ToolCategories[i].1
    ensures forall i, j ::
      (0 <= i < |ToolCategories| && 0 <= j < |ToolCategories|
       && t in ToolCategories[i].1 && t in ToolCategories[j].1) ==> i == j
  {
    RegistryKeysAreCategoryLists();
    FlattenMembership(ToolCategories, t);
    CategoriesDisjoint();
  }

  /** Every name the category table lists is a registry key, so indexing the
      registry by it succeeds. */
  lemma CategoryNamesAreRegistryKeys()
    ensures forall i, t :: 0 <= i < |ToolCategories| && t in ToolCategories[i].1 ==>
      Find(ToolRegistry, t).Some?
  {
    forall i, t | 0 <= i < |ToolCategories| && t in ToolCategories[i].1
      ensures Find(ToolRegistry, t).Some?
    {
      CategoriesPartitionRegistry(t);
    }
  }

  /** The JSON-like values a stub tool returns (`Dict[str, Any]`). */
  datatype Json =
    | JNull
    | JBool(b: bool)
    | JInt(i: int)
    | JReal(r: real)
    | JStr(s: string)
    | JList(items: seq<Json>)
    | JObject(fields: seq<(string, Json)>)

  /** A returned dictionary, in insertion order. */
  type Dict = seq<(string, Json)>

  /** `update_inventory`: reports the given quantity as the new quantity, whatever
      the operation (the source's default operation is "add"). */
  function UpdateInventory(productId: string, quantity: int, operation: string): (r: Dict)
    ensures NoDup(Keys(r))
    ensures Find(r, "status") == Some(JStr("success"))
    ensures Find(r, "product_id") == Some(JStr(productId))
    ensures Find(r, "new_quantity") == Some(JInt(quantity))
  {
    var d := [("status", JStr("success")), ("product_id", JStr(productId)), ("new_quantity", JInt(quantity))];
    FindAt(d, 2);
    d
  }

  lemma UpdateInventoryIgnoresOperation(productId: string, quantity: int, op1: string, op2: string)
    ensures UpdateInventory(productId, quantity, op1) == UpdateInventory(productId, quantity, op2)
  {
  }

  /** `batch_update_inventory`: the updated count is the number of updates. */
  function BatchUpdateInventory(updates: seq<Json>): (r: Dict)
    ensures NoDup(Keys(r))
    ensures Find(r, "status") == Some(JStr("success"))
    ensures Find(r, "updated_count") == Some(JInt(|updates|))
  {
    [("status", JStr("success")), ("updated_count", JInt(|updates|))]
  }

  /** `add_items_to_order`: the added count is the number of items; the new total
      is the fixed 349.99. */
  function AddItemsToOrder(orderId: string, items: seq<Json>): (r: Dict)
    ensures NoDup(Keys(r))
    ensures Find(r, "status") == Some(JStr("success"))
    ensures Find(r, "items_added") == Some(JInt(|items|))
    ensures Find(r, "new_total") == Some(JReal(349.99))
  {
    var d := [("status", JStr("success")), ("items_added", JInt(|items|)), ("new_total", JReal(349.99))];
    FindAt(d, 2);
    d
  }

  /** `remove_items_from_order`: the removed count is the number of item ids; the
      new total is the fixed 249.99. */
  function RemoveItemsFromOrder(orderId: string, itemIds: seq<string>): (r: Dict)
    ensures NoDup(Keys(r))
    ensures Find(r, "status") == Some(JStr("success"))
    ensures Find(r, "items_removed") == Some(JInt(|itemIds|))
    ensures Find(r, "new_total") == Some(JReal(249.99))
  {
    var d := [("status", JStr("success")), ("items_removed", JInt(|itemIds|)), ("new_total", JReal(249.99))];
    FindAt(d, 2);
    d
  }

  /** `create_product_bundle`: the product count is the number of product ids,
      under the fixed bundle id "BNDL-33221". */
  function CreateProductBundle(name: string, productIds: seq<string>, discount: real): (r: Dict)
    ensures NoDup(Keys(r))
    ensures Find(r, "status") == Some(JStr("created"))
    ensures Find(r, "bundle_id") == Some(JStr("BNDL-33221"))
    ensures Find(r, "products") == Some(JInt(|productIds|))
  {
    var d := [("status", JStr("created")), ("bundle_id", JStr("BNDL-33221")), ("products", JInt(|productIds|))];
    FindAt(d, 2);
    d
  }

  /** The length-echoing stubs look only at the length of their list argument:
      lists of equal length give equal results, whatever their elements. */
  lemma {:induction false} StubsEchoOnlyLength(u1: seq<Json>, u2: seq<Json>, orderId: string,
                                               ids1: seq<string>, ids2: seq<string>,
                                               name: string, discount: real)
    requires |u1| == |u2| && |ids1| == |ids2|
    ensures BatchUpdateInventory(u1) == BatchUpdateInventory(u2)
    ensures AddItemsToOrder(orderId, u1) == AddItemsToOrder(orderId, u2)
    ensures RemoveItemsFromOrder(orderId, ids1) == RemoveItemsFromOrder(orderId, ids2)
    ensures CreateProductBundle(name, ids1, discount) == CreateProductBundle(name, ids2, discount)
  {
  }
}
